/**
 * The flip card for one fact (apps/web/src/components/FactCard/FactCard.tsx).
 * The card is open while the page's `factId` parameter names it; opening
 * sets that parameter and adds the fact's facets, closing removes it.
 */
module FactCard {
  import opened Wrappers
  import opened Strings
  import opened QueryParams
  import opened Hits

  /** The facets a fact hit contributes to the search parameters. */
  function FacetsOf(hit: SearchHit): Facets {
    Facets(hit.category.GetOr(""), ListOr(hit.projects, []), ListOr(hit.tagsLvl0, []), ListOr(hit.tagsLvl1, []))
  }

  /** `isFlipped`: the `factId` parameter is this hit's object ID. */
  predicate IsFlipped(p: Params, hit: SearchHit) {
    FirstValue(p, "factId") == Some(hit.objectID)
  }

  /** The parameters `openCard` pushes. */
  function OpenParams(p: Params, hit: SearchHit): Params {
    FocusParams(p, hit.objectID, FacetsOf(hit))
  }

  /** The parameters `closeCard` keeps. */
  function CloseParams(p: Params): Params {
    WithoutKey(p, "factId")
  }

  /** Where `closeCard` navigates: the remaining query, or the bare path when nothing remains. */
  function CloseTarget(p: Params, pathname: string): string {
    if Serialize(CloseParams(p)) != "" then "?" + Serialize(CloseParams(p)) else pathname
  }

  /**
   * Opening a card flips it, whatever the parameters were; the facets the
   * parameters lacked come from the hit and the others are left as they were.
   */
  lemma OpenFlips(p: Params, hit: SearchHit, key: string)
    ensures IsFlipped(OpenParams(p, hit), hit)
    ensures Values(OpenParams(p, hit), "factId") == [hit.objectID]
    ensures key != "factId" ==>
              Values(OpenParams(p, hit), key) ==
              (if IsFacetKey(key) && !HasKey(p, key) then FacetValues(FacetsOf(hit), key) else Values(p, key))
  {
    FocusParamsValues(p, hit.objectID, FacetsOf(hit), key);
  }

  /**
   * Closing unflips every card, and keeps every other parameter; the bare
   * path is the target exactly when `factId` was the only key.
   */
  lemma CloseUnflips(p: Params, hit: SearchHit, key: string)
    ensures !IsFlipped(CloseParams(p), hit)
    ensures key != "factId" ==> Values(CloseParams(p), key) == Values(p, key)
    ensures CloseTarget(p, "/search") == "/search" <==> CloseParams(p) == []
  {
    WithoutKeyKeepsOthers(p, "factId", key);
    WithoutKeyValues(p, "factId", key);
    FirstValueIsFirstOfValues(CloseParams(p), "factId");
    var query := Serialize(CloseParams(p));
    if query != "" {
      assert ("?" + query)[0] != "/search"[0];
    }
  }

  /** The card's own link: `factId`, then category, projects, `tag0` and `tag1` values. */
  function CardParams(hit: SearchHit): Params {
    var f := FacetsOf(hit);
    [("factId", hit.objectID)] + Pairs("category", FacetValues(f, "category")) +
      Pairs("project", f.projects) + Pairs("tag0", f.tags0) + Pairs("tag1", f.tags1)
  }

  function CardUrl(hit: SearchHit): (url: string)
    ensures StartsWith(url, "/search?factId=")
  {
    "/search?" + Serialize(CardParams(hit))
  }

  /** Merging a key absent from `p` appends its values. */
  lemma MergeAbsent(p: Params, f: Facets, key: string)
    requires !HasKey(p, key)
    ensures MergeKey(p, f, key) == p + Pairs(key, FacetValues(f, key))
  {
    if |FacetValues(f, key)| == 0 {
      assert p + Pairs(key, FacetValues(f, key)) == p;
    }
  }

  lemma NotInAppended(p: Params, key: string, vs: seq<string>, other: string)
    requires !HasKey(p, other) && key != other
    ensures !HasKey(p + Pairs(key, vs), other)
  {
    FirstValueIsFirstOfValues(p, other);
    FirstValueIsFirstOfValues(p + Pairs(key, vs), other);
    ValuesConcat(p, Pairs(key, vs), other);
    ValuesOfPairs(key, vs, other);
  }

  /**
   * The card's link is exactly what opening the card from an empty query
   * pushes, so following the link opens this card.
   */
  lemma CardUrlOpensCard(hit: SearchHit)
    ensures CardParams(hit) == OpenParams([], hit)
    ensures IsFlipped(CardParams(hit), hit)
  {
    var f := FacetsOf(hit);
    var p0: Params := [("factId", hit.objectID)];
    assert WithSet([], "factId", hit.objectID) == p0;
    assert !HasKey(p0, "category") && !HasKey(p0, "project") && !HasKey(p0, "tag0") && !HasKey(p0, "tag1");
    var p1 := p0 + Pairs("category", FacetValues(f, "category"));
    MergeAbsent(p0, f, "category");
    NotInAppended(p0, "category", FacetValues(f, "category"), "project");
    NotInAppended(p0, "category", FacetValues(f, "category"), "tag0");
    NotInAppended(p0, "category", FacetValues(f, "category"), "tag1");
    var p2 := p1 + Pairs("project", f.projects);
    MergeAbsent(p1, f, "project");
    NotInAppended(p1, "project", f.projects, "tag0");
    NotInAppended(p1, "project", f.projects, "tag1");
    var p3 := p2 + Pairs("tag0", f.tags0);
    MergeAbsent(p2, f, "tag0");
    NotInAppended(p2, "tag0", f.tags0, "tag1");
    MergeAbsent(p3, f, "tag1");
    OpenFlips([], hit, "factId");
  }

  /** At most one level-one tag is displayed: the first. */
  function DisplayTags(hit: SearchHit): (shown: seq<string>)
    ensures |shown| <= 1
    ensures |shown| == 1 <==> |ListOr(hit.tagsLvl1, [])| > 0
    ensures shown == ListOr(hit.tagsLvl1, [])[..|shown|]
  {
    var tags := ListOr(hit.tagsLvl1, []);
    if |tags| == 0 then [] else tags[..1]
  }

  /** The category chip: the hit's category, or `System` when it has none. */
  function CategoryLabel(hit: SearchHit): (chip: string)
    ensures chip != ""
    ensures Truthy(hit.category) ==> chip == hit.category.value
    ensures !Truthy(hit.category) ==> chip == "System"
  {
    if Truthy(hit.category) then hit.category.value else "System"
  }

  /** The card's front text: the highlighted blurb, or an excerpt of the body with an ellipsis. */
  datatype CardDescription = HighlightedBlurb | Excerpt(text: string)

  function Description(hit: SearchHit): (d: CardDescription)
    ensures d.HighlightedBlurb? <==> Truthy(hit.blurb)
    ensures d.Excerpt? ==>
      var body := if Truthy(hit.content) then hit.content.value else if Truthy(hit.fact) then hit.fact.value else "";
      |d.text| <= 103 && EndsWith(d.text, "...") && StartsWith(body, d.text[..|d.text| - 3]) &&
      |d.text| == (if |body| < 100 then |body| else 100) + 3
  {
    if Truthy(hit.blurb) then HighlightedBlurb
    else
      var body := OrElse(hit.content, OrElse(hit.fact, Some(""))).value;
      var cut := if |body| <= 100 then body else body[..100];
      assert (cut + "...")[..|cut|] == cut;
      Excerpt(cut + "...")
  }

  /** One card: whether its view event was sent, and the events it sent. */
  class Card {
    const hit: SearchHit
    var hasTrackedFlip: bool
    var viewEvents: seq<string>

    /** The view event goes out at most once, and the flag records that it did. */
    predicate Valid()
      reads this
    {
      |viewEvents| <= 1 && (hasTrackedFlip <==> |viewEvents| == 1) &&
      (forall e :: e in viewEvents ==> e == hit.objectID)
    }

    constructor(hit: SearchHit)
      ensures this.hit == hit && Valid() && viewEvents == []
    {
      this.hit := hit;
      hasTrackedFlip := false;
      viewEvents := [];
    }

    /** `openCard`: track the first view, then push the focus parameters. */
    method OpenCard(p: Params, canSendEvents: bool) returns (pushed: string)
      requires Valid()
      modifies this
      ensures Valid()
      ensures pushed == "?" + Serialize(OpenParams(p, hit))
      ensures hasTrackedFlip == (old(hasTrackedFlip) || canSendEvents)
      ensures viewEvents == if !old(hasTrackedFlip) && canSendEvents then [hit.objectID] else old(viewEvents)
    {
      if !hasTrackedFlip && canSendEvents {
        hasTrackedFlip := true;
        viewEvents := viewEvents + [hit.objectID];
      }
      var params := new SearchParams(p);
      params.Set("factId", hit.objectID);
      ApplyFacets(params, FacetsOf(hit));
      pushed := "?" + params.ToString();
    }

    /** `handleCardClick`, Enter and Space: close an open card, open a closed one. */
    method Activate(p: Params, pathname: string, canSendEvents: bool) returns (pushed: string)
      requires Valid()
      modifies this
      ensures Valid()
      ensures IsFlipped(p, hit) ==> pushed == CloseTarget(p, pathname) && viewEvents == old(viewEvents) &&
                                    hasTrackedFlip == old(hasTrackedFlip)
      ensures !IsFlipped(p, hit) ==> pushed == "?" + Serialize(OpenParams(p, hit))
      ensures !IsFlipped(p, hit) ==> hasTrackedFlip == (old(hasTrackedFlip) || canSendEvents)
      ensures !IsFlipped(p, hit) ==>
        viewEvents == if !old(hasTrackedFlip) && canSendEvents then [hit.objectID] else old(viewEvents)
    {
      if FirstValue(p, "factId") == Some(hit.objectID) {
        pushed := CloseCard(p, pathname);
      } else {
        pushed := OpenCard(p, canSendEvents);
      }
    }

    /** `handleKeyDown`: Enter and Space activate the card; every other key does nothing. */
    method HandleKeyDown(key: string, p: Params, pathname: string, canSendEvents: bool) returns (pushed: Option<string>)
      requires Valid()
      modifies this
      ensures Valid()
      ensures pushed.Some? <==> key == "Enter" || key == " "
      ensures pushed.None? ==> viewEvents == old(viewEvents) && hasTrackedFlip == old(hasTrackedFlip)
      ensures pushed.Some? && IsFlipped(p, hit) ==>
        pushed.value == CloseTarget(p, pathname) && viewEvents == old(viewEvents) && hasTrackedFlip == old(hasTrackedFlip)
      ensures pushed.Some? && !IsFlipped(p, hit) ==>
        pushed.value == "?" + Serialize(OpenParams(p, hit)) &&
        hasTrackedFlip == (old(hasTrackedFlip) || canSendEvents) &&
        viewEvents == if !old(hasTrackedFlip) && canSendEvents then [hit.objectID] else old(viewEvents)
    {
      if key == "Enter" || key == " " {
        var target := Activate(p, pathname, canSendEvents);
        pushed := Some(target);
      } else {
        pushed := None;
      }
    }
  }

  /** `closeCard`: drop `factId` and navigate to what remains. */
  method CloseCard(p: Params, pathname: string) returns (pushed: string)
    ensures pushed == CloseTarget(p, pathname)
  {
    var params := new SearchParams(p);
    params.Delete("factId");
    var query := params.ToString();
    pushed := if query != "" then "?" + query else pathname;
  }

  /** The window's Escape handler: only an open card reacts, by closing. */
  method OnWindowKey(hit: SearchHit, key: string, p: Params, pathname: string) returns (pushed: Option<string>)
    ensures pushed.Some? <==> key == "Escape" && IsFlipped(p, hit)
    ensures pushed.Some? ==> pushed.value == CloseTarget(p, pathname)
  {
    if key == "Escape" && FirstValue(p, "factId") == Some(hit.objectID) {
      var target := CloseCard(p, pathname);
      pushed := Some(target);
    } else {
      pushed := None;
    }
  }
}
