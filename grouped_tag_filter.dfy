/**
 * The two-level tag filter (apps/web/src/components/SearchPage/GroupedTagFilter.tsx):
 * level-one tags `Parent > Child` are filed under their parent, a parent with
 * children becomes a collapsible group, and a parent without children is a
 * plain checkbox on the level-zero tag.
 */
module GroupedTagFilter {
  import opened Wrappers
  import opened Strings

  /** One facet value of a refinement list. */
  datatype RefinementItem = RefinementItem(labelText: string, value: string, count: nat, isRefined: bool)

  const Separator := " > "

  const DefaultLimit: nat := 50

  /** A refinement list the component asks for. */
  datatype ListRequest = ListRequest(attribute: string, limit: nat, sortBy: seq<string>)

  /** The two lists requested: level one with twice the limit of level zero. */
  function Requests(lvl0Attr: string, lvl1Attr: string, limit: Option<nat>): (rs: seq<ListRequest>)
    ensures |rs| == 2 && rs[0].attribute == lvl0Attr && rs[1].attribute == lvl1Attr
    ensures rs[1].limit == 2 * rs[0].limit
    ensures limit.None? ==> rs[0].limit == 50 && rs[1].limit == 100
    ensures limit.Some? ==> rs[0].limit == limit.value
  {
    var l := limit.GetOr(DefaultLimit);
    [ListRequest(lvl0Attr, l, ["name:asc"]), ListRequest(lvl1Attr, 2 * l, ["name:asc"])]
  }

  /** The parent an item is filed under: the first `' > '` part, when there are at least two. */
  function ParentOf(item: RefinementItem): Option<string> {
    var parts := Split(item.value, Separator);
    if |parts| >= 2 then Some(parts[0]) else None
  }

  /** The items filed under `parent`, in input order. */
  function ChildrenOf(items: seq<RefinementItem>, parent: string): (cs: seq<RefinementItem>)
    ensures |cs| <= |items|
    ensures forall c :: c in cs ==> c in items && ParentOf(c) == Some(parent)
    ensures forall i :: 0 <= i < |items| && ParentOf(items[i]) == Some(parent) ==> items[i] in cs
  {
    if items == [] then []
    else
      var init := items[..|items| - 1];
      var last := items[|items| - 1];
      var cs := ChildrenOf(init, parent);
      assert forall i :: 0 <= i < |init| ==> init[i] == items[i];
      cs + (if ParentOf(last) == Some(parent) then [last] else [])
  }

  /** The dictionary `childrenByParent` after the items have been filed. */
  function Grouped(items: seq<RefinementItem>): (m: map<string, seq<RefinementItem>>)
    ensures forall p :: p in m ==> m[p] != []
  {
    if items == [] then map[]
    else
      var m := Grouped(items[..|items| - 1]);
      var last := items[|items| - 1];
      match ParentOf(last)
      case None => m
      case Some(p) => m[p := (if p in m then m[p] else []) + [last]]
  }

  /** The grouping loop: each item with a parent is pushed onto its parent's list. */
  method GroupChildren(items: seq<RefinementItem>) returns (childrenByParent: map<string, seq<RefinementItem>>)
    ensures childrenByParent == Grouped(items)
  {
    childrenByParent := map[];
    var i := 0;
    while i < |items|
      invariant 0 <= i <= |items|
      invariant childrenByParent == Grouped(items[..i])
    {
      assert items[..i + 1][..i] == items[..i];
      var parts := Split(items[i].value, Separator);
      if |parts| >= 2 {
        var parent := parts[0];
        ghost var before := childrenByParent;
        if parent !in childrenByParent {
          childrenByParent := childrenByParent[parent := []];
        }
        childrenByParent := childrenByParent[parent := childrenByParent[parent] + [items[i]]];
        assert childrenByParent == before[parent := (if parent in before then before[parent] else []) + [items[i]]];
      }
      i := i + 1;
    }
    assert items[..i] == items;
  }

  /**
   * A label has an entry in the dictionary exactly when some item is filed
   * under it, and the entry is the list of those items in input order.
   */
  lemma {:induction false} GroupedIsChildren(items: seq<RefinementItem>, parent: string)
    ensures parent in Grouped(items) <==> ChildrenOf(items, parent) != []
    ensures parent in Grouped(items) ==> Grouped(items)[parent] == ChildrenOf(items, parent)
  {
    if items != [] {
      GroupedIsChildren(items[..|items| - 1], parent);
    }
  }

  /** Whether a group is open: a label never toggled is closed (`?? false`). */
  predicate IsExpanded(expanded: map<string, bool>, name: string) {
    name in expanded && expanded[name]
  }

  /** `{...prev, [label]: !prev[label]}`. */
  function Toggled(expanded: map<string, bool>, labelText: string): map<string, bool> {
    expanded[labelText := !IsExpanded(expanded, labelText)]
  }

  /** Toggling flips the one label, leaves all others alone, and twice restores it. */
  lemma ToggleFlipsOnlyLabel(expanded: map<string, bool>, labelText: string, other: string)
    ensures IsExpanded(Toggled(expanded, labelText), labelText) == !IsExpanded(expanded, labelText)
    ensures other != labelText ==> IsExpanded(Toggled(expanded, labelText), other) == IsExpanded(expanded, other)
    ensures IsExpanded(Toggled(Toggled(expanded, labelText), labelText), other) == IsExpanded(expanded, other)
    ensures !IsExpanded(map[], labelText)
  {
  }

  /** The component's expanded-group state. */
  class Filter {
    var expandedGroups: map<string, bool>

    constructor()
      ensures expandedGroups == map[]
    {
      expandedGroups := map[];
    }

    /** `toggleGroup`. */
    method ToggleGroup(labelText: string)
      modifies this
      ensures expandedGroups == Toggled(old(expandedGroups), labelText)
    {
      expandedGroups := expandedGroups[labelText := !(labelText in expandedGroups && expandedGroups[labelText])];
    }
  }

  /** What clicking a rendered control does. */
  datatype Action = RefineLvl0(value: string) | RefineLvl1(value: string) | ToggleGroupAction(labelText: string)

  /** A child checkbox: it shows the second `' > '` part of its label and refines its level-one value. */
  datatype ChildView = ChildView(shownLabel: Option<string>, checked: bool, count: nat, onChange: Action)

  /** A root: a collapsible group of children, or a stand-alone checkbox on the level-zero value. */
  datatype RootView =
    | Group(labelText: string, count: nat, expanded: bool, children: seq<ChildView>, onClick: Action)
    | Standalone(labelText: string, checked: bool, count: nat, onChange: Action)

  function SecondPart(labelText: string): Option<string> {
    var parts := Split(labelText, Separator);
    if |parts| >= 2 then Some(parts[1]) else None
  }

  function ChildViewOf(child: RefinementItem): ChildView {
    ChildView(SecondPart(child.labelText), child.isRefined, child.count, RefineLvl1(child.value))
  }

  function RootViewOf(root: RefinementItem, grouped: map<string, seq<RefinementItem>>, expanded: map<string, bool>): RootView {
    var children := if root.labelText in grouped then grouped[root.labelText] else [];
    if |children| > 0 then
      var open := IsExpanded(expanded, root.labelText);
      Group(root.labelText, root.count, open,
        if open then seq(|children|, i requires 0 <= i < |children| => ChildViewOf(children[i])) else [],
        ToggleGroupAction(root.labelText))
    else Standalone(root.labelText, root.isRefined, root.count, RefineLvl0(root.value))
  }

  /** The component's output: nothing without level-zero items, else one view per root in order. */
  function Render(lvl0: seq<RefinementItem>, lvl1: seq<RefinementItem>, expanded: map<string, bool>): (r: Option<seq<RootView>>)
    ensures r.None? <==> lvl0 == []
    ensures r.Some? ==> |r.value| == |lvl0|
  {
    if |lvl0| == 0 then None
    else
      var grouped := Grouped(lvl1);
      Some(seq(|lvl0|, i requires 0 <= i < |lvl0| => RootViewOf(lvl0[i], grouped, expanded)))
  }

  /**
   * A root is a group exactly when some level-one item is filed under its
   * label; a group toggles its label and, when open, lists those items in
   * order as checkboxes on their level-one values; any other root is a
   * checkbox on its own level-zero value.
   */
  lemma RootViewShape(root: RefinementItem, lvl1: seq<RefinementItem>, expanded: map<string, bool>)
    ensures var v := RootViewOf(root, Grouped(lvl1), expanded);
      v.Group? <==> ChildrenOf(lvl1, root.labelText) != []
    ensures var v := RootViewOf(root, Grouped(lvl1), expanded);
      v.Group? ==> v.onClick == ToggleGroupAction(root.labelText) && v.expanded == IsExpanded(expanded, root.labelText)
    ensures var v := RootViewOf(root, Grouped(lvl1), expanded);
      var cs := ChildrenOf(lvl1, root.labelText);
      v.Group? && v.expanded ==>
        |v.children| == |cs| && forall j :: 0 <= j < |cs| ==> v.children[j] == ChildViewOf(cs[j])
    ensures var v := RootViewOf(root, Grouped(lvl1), expanded);
      v.Group? && !v.expanded ==> v.children == []
    ensures var v := RootViewOf(root, Grouped(lvl1), expanded);
      v.Standalone? ==> v.onChange == RefineLvl0(root.value) && v.checked == root.isRefined
  {
    GroupedIsChildren(lvl1, root.labelText);
  }

  /** A child checkbox refines its own level-one value and shows the second part of its label. */
  lemma ChildViewShape(child: RefinementItem)
    ensures ChildViewOf(child).onChange == RefineLvl1(child.value)
    ensures ChildViewOf(child).shownLabel.Some? <==> Contains(child.labelText, Separator)
  {
  }

  /** The filter renders nothing exactly when there are no level-zero items. */
  lemma RenderNothingIffNoRoots(lvl0: seq<RefinementItem>, lvl1: seq<RefinementItem>, expanded: map<string, bool>)
    ensures Render(lvl0, lvl1, expanded).None? <==> lvl0 == []
    ensures Render(lvl0, lvl1, expanded).Some? ==>
              |Render(lvl0, lvl1, expanded).value| == |lvl0| &&
              forall i :: 0 <= i < |lvl0| ==> Render(lvl0, lvl1, expanded).value[i] == RootViewOf(lvl0[i], Grouped(lvl1), expanded)
  {
  }
}
