/**
 * The search page's URL state: the mapping between the InstantSearch UI
 * state of one index, the route state, and the query-string parameters
 * (apps/web/src/components/SearchPage/searchRouting.ts).
 */
module SearchRouting {
  import opened Wrappers
  import opened Strings
  import opened Numerals
  import opened QueryParams

  /**
   * One value as the query-string parser returns it for a key: nothing, a
   * string, an array (of strings, for repeated keys), or a nested object.
   */
  datatype Raw = Absent | Str(s: string) | List(items: seq<Raw>) | Obj

  /** JavaScript truthiness of such a value: only `undefined` and `''` are falsy. */
  predicate Truthy(v: Raw) {
    match v
    case Absent => false
    case Str(s) => s != ""
    case List(_) => true
    case Obj => true
  }

  /** Number of string elements in `items`. */
  function CountStrings(items: seq<Raw>): nat {
    if items == [] then 0 else (if items[0].Str? then 1 else 0) + CountStrings(items[1..])
  }

  /** The string elements of an array, in order (`filter(typeof item === 'string')`). */
  function StringsOf(items: seq<Raw>): (r: seq<string>)
    ensures |r| == CountStrings(items)
    ensures forall x :: x in r <==> Str(x) in items
  {
    if items == [] then []
    else
      var rest := StringsOf(items[1..]);
      assert forall x :: Str(x) in items <==> Str(x) == items[0] || Str(x) in items[1..] by {
        assert items == [items[0]] + items[1..];
      }
      if items[0].Str? then [items[0].s] + rest else rest
  }

  /** `normalizeArrayParam`: a parsed value as a list of strings. */
  function NormalizeArrayParam(v: Raw): (r: seq<string>)
    ensures v.Absent? || v == Str("") || v.Obj? ==> r == []
    ensures v.Str? && v.s != "" ==> r == [v.s]
    ensures v.List? ==> r == StringsOf(v.items)
  {
    if !Truthy(v) then []
    else match v
      case List(items) => StringsOf(items)
      case Str(s) => [s]
      case _ => []
  }

  /** `withValues`: a missing or empty list becomes missing; any other list is kept as it is. */
  function WithValues(values: Option<seq<string>>): (r: Option<seq<string>>)
    ensures r.None? <==> values.None? || values.value == []
    ensures r.Some? ==> r == values
  {
    if values.None? || |values.value| == 0 then None else values
  }

  /**
   * The text `parsePageParam` reads: a truthy string itself, or the first
   * element of an array when that element is a string.
   */
  function PageText(v: Raw): (t: Option<string>)
    ensures t.Some? <==> (v.Str? && v.s != "") || (v.List? && |v.items| > 0 && v.items[0].Str?)
    ensures t.Some? && v.Str? ==> t.value == v.s
    ensures t.Some? && v.List? ==> t.value == v.items[0].s
  {
    if !Truthy(v) then None
    else
      var raw := if v.List? then (if |v.items| > 0 then v.items[0] else Absent) else v;
      if raw.Str? then Some(raw.s) else None
  }

  /**
   * `parsePageParam`: the number the page text holds, when it is finite and
   * greater than 1; nothing for a falsy value, a non-string, a non-numeric
   * text or a number up to 1.
   */
  function ParsePageParam(v: Raw): (r: Option<int>)
    ensures r.Some? ==> r.value > 1
    ensures !Truthy(v) ==> r.None?
    ensures PageText(v).None? ==> r.None?
    ensures r.Some? ==> ToNumber(PageText(v).value) == Finite(r.value)
    ensures PageText(v).Some? && ToNumber(PageText(v).value).Finite? && ToNumber(PageText(v).value).value > 1
      ==> r == Some(ToNumber(PageText(v).value).value)
  {
    match PageText(v)
    case None => None
    case Some(text) =>
      match ToNumber(text)
      case NaN => None
      case Finite(n) => if n <= 1 then None else Some(n)
  }

  /** The decimal text of a page number parses back to it exactly when it is above 1. */
  lemma ParsePageOfNumeral(n: nat)
    ensures ParsePageParam(Str(NatToString(n))) == if n > 1 then Some(n) else None
    ensures ParsePageParam(List([Str(NatToString(n))])) == if n > 1 then Some(n) else None
  {
    NumberOfNatToString(n);
  }

  /** The UI state InstantSearch keeps for one index. */
  datatype IndexUiState = IndexUiState(
    query: Option<string>,
    page: Option<int>,
    refinementList: Option<map<string, seq<string>>>)

  /** The UI state of every index, by index name. */
  type UiState = map<string, IndexUiState>

  /** The state that is written into the URL. */
  datatype RouteState = RouteState(
    query: Option<string>,
    page: Option<int>,
    category: Option<seq<string>>,
    projects: Option<seq<string>>,
    tag0: Option<seq<string>>,
    tag1: Option<seq<string>>)

  const CategoryKey := "category"
  const ProjectsKey := "projects"
  const Tag0Key := "tags.lvl0"
  const Tag1Key := "tags.lvl1"

  predicate IsRefinementKey(key: string) {
    key == CategoryKey || key == ProjectsKey || key == Tag0Key || key == Tag1Key
  }

  /** `refinementList?.[key]`. */
  function Refinement(rl: Option<map<string, seq<string>>>, key: string): Option<seq<string>> {
    if rl.Some? && key in rl.value then Some(rl.value[key]) else None
  }

  /** The route-state list that stands for a refinement key. */
  function RouteList(rs: RouteState, key: string): Option<seq<string>>
    requires IsRefinementKey(key)
  {
    if key == CategoryKey then rs.category
    else if key == ProjectsKey then rs.projects
    else if key == Tag0Key then rs.tag0
    else rs.tag1
  }

  /** `uiState[indexName] || {}`. */
  function IndexState(ui: UiState, indexName: string): IndexUiState {
    if indexName in ui then ui[indexName] else IndexUiState(None, None, None)
  }

  /** `toRouteState`. */
  function ToRouteState(ui: UiState, indexName: string): (rs: RouteState)
    ensures IsCanonical(rs)
    ensures indexName !in ui ==> rs == RouteState(None, None, None, None, None, None)
  {
    var s := IndexState(ui, indexName);
    RouteState(
      s.query,
      s.page,
      WithValues(Refinement(s.refinementList, CategoryKey)),
      WithValues(Refinement(s.refinementList, ProjectsKey)),
      WithValues(Refinement(s.refinementList, Tag0Key)),
      WithValues(Refinement(s.refinementList, Tag1Key)))
  }

  /** `m` with `key` bound to the list when the list is present and not empty. */
  function KeepNonEmpty(m: map<string, seq<string>>, key: string, values: Option<seq<string>>): map<string, seq<string>> {
    if WithValues(values).Some? then m[key := values.value] else m
  }

  /** The refinement list `toUiState` builds: only the non-empty lists survive. */
  function CleanedRefinements(rs: RouteState): map<string, seq<string>> {
    KeepNonEmpty(KeepNonEmpty(KeepNonEmpty(KeepNonEmpty(map[], CategoryKey, rs.category),
      ProjectsKey, rs.projects), Tag0Key, rs.tag0), Tag1Key, rs.tag1)
  }

  /** `toUiState`. */
  function ToUiState(rs: RouteState, indexName: string): (ui: UiState)
    ensures ui.Keys == {indexName} && ui[indexName].refinementList.Some?
    ensures forall k :: k in ui[indexName].refinementList.value ==>
      IsRefinementKey(k) && ui[indexName].refinementList.value[k] != []
  {
    map[indexName := IndexUiState(rs.query, rs.page, Some(CleanedRefinements(rs)))]
  }

  /**
   * `toUiState` copies query and page and keeps exactly the refinement keys
   * whose route list is present and non-empty, with that list.
   */
  lemma ToUiStateRefinements(rs: RouteState, indexName: string, key: string)
    ensures indexName in ToUiState(rs, indexName)
    ensures ToUiState(rs, indexName)[indexName].query == rs.query
    ensures ToUiState(rs, indexName)[indexName].page == rs.page
    ensures ToUiState(rs, indexName)[indexName].refinementList.Some?
    ensures key in ToUiState(rs, indexName)[indexName].refinementList.value <==>
      IsRefinementKey(key) && RouteList(rs, key).Some? && RouteList(rs, key).value != []
    ensures IsRefinementKey(key) && key in ToUiState(rs, indexName)[indexName].refinementList.value ==>
      ToUiState(rs, indexName)[indexName].refinementList.value[key] == RouteList(rs, key).value
  {
  }

  /** The refinement lists of `rl` under the four route keys, without the empty ones. */
  function NonEmptyRouteRefinements(rl: Option<map<string, seq<string>>>): map<string, seq<string>> {
    if rl.None? then map[]
    else map k | k in rl.value && IsRefinementKey(k) && rl.value[k] != [] :: rl.value[k]
  }

  /**
   * UI state to route state and back: query and page come back unchanged and
   * the refinement list comes back restricted to the four route keys, less the
   * empty lists. When all four lists are present and non-empty (and no other
   * key is refined) that is the original refinement list.
   */
  lemma UiRouteUiRoundTrip(ui: UiState, indexName: string)
    requires indexName in ui
    ensures var back := ToUiState(ToRouteState(ui, indexName), indexName)[indexName];
      back.query == ui[indexName].query && back.page == ui[indexName].page &&
      back.refinementList == Some(NonEmptyRouteRefinements(ui[indexName].refinementList))
  {
    var rs := ToRouteState(ui, indexName);
    var rl := ui[indexName].refinementList;
    var got := CleanedRefinements(rs);
    var want := NonEmptyRouteRefinements(rl);
    forall k ensures k in got <==> k in want {
      if IsRefinementKey(k) {
        ToUiStateRefinements(rs, indexName, k);
      }
    }
    forall k | k in got ensures got[k] == want[k] {
      ToUiStateRefinements(rs, indexName, k);
    }
    assert got == want;
  }

  lemma UiRouteUiRoundTripFull(ui: UiState, indexName: string)
    requires indexName in ui && ui[indexName].refinementList.Some?
    requires forall k :: k in ui[indexName].refinementList.value ==> IsRefinementKey(k)
    requires forall k :: k in ui[indexName].refinementList.value ==> ui[indexName].refinementList.value[k] != []
    ensures ToUiState(ToRouteState(ui, indexName), indexName)[indexName] == ui[indexName]
  {
    UiRouteUiRoundTrip(ui, indexName);
    var rl := ui[indexName].refinementList.value;
    assert NonEmptyRouteRefinements(Some(rl)) == rl;
  }

  /** A route state in which every list that is present is non-empty. */
  predicate IsCanonical(rs: RouteState) {
    (rs.category.Some? ==> rs.category.value != []) &&
    (rs.projects.Some? ==> rs.projects.value != []) &&
    (rs.tag0.Some? ==> rs.tag0.value != []) &&
    (rs.tag1.Some? ==> rs.tag1.value != [])
  }

  /** Route state to UI state and back gives the route state with empty lists made missing. */
  lemma RouteUiRouteRoundTrip(rs: RouteState, indexName: string)
    ensures ToRouteState(ToUiState(rs, indexName), indexName) ==
      RouteState(rs.query, rs.page, WithValues(rs.category), WithValues(rs.projects),
                 WithValues(rs.tag0), WithValues(rs.tag1))
    ensures IsCanonical(rs) ==> ToRouteState(ToUiState(rs, indexName), indexName) == rs
  {
    ToUiStateRefinements(rs, indexName, CategoryKey);
    ToUiStateRefinements(rs, indexName, ProjectsKey);
    ToUiStateRefinements(rs, indexName, Tag0Key);
    ToUiStateRefinements(rs, indexName, Tag1Key);
  }

  /** `values.forEach((v) => params.append(key, v))` on a possibly missing list. */
  function PairsOf(key: string, values: Option<seq<string>>): Params {
    if values.Some? then Pairs(key, values.value) else []
  }

  /**
   * The parameters written for a route state: query (when not empty), page
   * (when above 1), then one pair per category, project, tag0 and tag1 value.
   */
  function RouteParams(rs: RouteState): Params {
    QueryParam(rs) + PageParam(rs)
    + PairsOf("category", rs.category)
    + PairsOf("project", rs.projects)
    + PairsOf("tag0", rs.tag0)
    + PairsOf("tag1", rs.tag1)
  }

  /** `path` followed by `?` and the parameters, or `path` alone when there are none. */
  function WithQuery(path: string, p: Params): string {
    if p == [] then path else path + "?" + Serialize(p)
  }

  /** The router's `createURL`. */
  function CreateURL(rs: RouteState, pathname: string): (url: string)
    ensures StartsWith(url, pathname)
    ensures url == pathname <==> RouteParams(rs) == []
  {
    WithQuery(pathname, RouteParams(rs))
  }

  /** `getSearchPageURL(indexUiState, indexName, basePath)`. */
  function GetSearchPageURL(s: IndexUiState, indexName: string, basePath: string): (url: string)
    ensures StartsWith(url, basePath)
    ensures url == basePath <==> RouteParams(ToRouteState(map[indexName := s], indexName)) == []
  {
    WithQuery(basePath, RouteParams(ToRouteState(map[indexName := s], indexName)))
  }

  /** Position of each URL parameter key in the fixed output order. */
  function KeyRank(key: string): nat {
    if key == "query" then 0
    else if key == "page" then 1
    else if key == "category" then 2
    else if key == "project" then 3
    else if key == "tag0" then 4
    else 5
  }

  /** The query block of the parameters. */
  function QueryParam(rs: RouteState): Params {
    if rs.query.Some? && rs.query.value != "" then [("query", rs.query.value)] else []
  }

  /** The page block of the parameters. */
  function PageParam(rs: RouteState): Params {
    if rs.page.Some? && rs.page.value > 1 then [("page", NatToString(rs.page.value))] else []
  }

  lemma ValuesOfSix(a: Params, b: Params, c: Params, d: Params, e: Params, f: Params, key: string)
    ensures Values(a + b + c + d + e + f, key) ==
      Values(a, key) + Values(b, key) + Values(c, key) + Values(d, key) + Values(e, key) + Values(f, key)
  {
    ValuesConcat(a, b, key);
    ValuesConcat(a + b, c, key);
    ValuesConcat(a + b + c, d, key);
    ValuesConcat(a + b + c + d, e, key);
    ValuesConcat(a + b + c + d + e, f, key);
  }

  lemma ValuesOfPairsOf(k: string, values: Option<seq<string>>, key: string)
    ensures Values(PairsOf(k, values), key) == if k == key then values.GetOr([]) else []
  {
    ValuesOfPairs(k, values.GetOr([]), key);
  }

  lemma ValuesOfHead(rs: RouteState, key: string)
    ensures Values(QueryParam(rs), key) ==
      if key == "query" && rs.query.Some? && rs.query.value != "" then [rs.query.value] else []
    ensures Values(PageParam(rs), key) ==
      if key == "page" && rs.page.Some? && rs.page.value > 1 then [NatToString(rs.page.value)] else []
  {
  }

  lemma RouteParamsValuesAt(rs: RouteState, key: string)
    ensures Values(RouteParams(rs), key) ==
      if key == "query" then (if rs.query.Some? && rs.query.value != "" then [rs.query.value] else [])
      else if key == "page" then (if rs.page.Some? && rs.page.value > 1 then [NatToString(rs.page.value)] else [])
      else if key == "category" then rs.category.GetOr([])
      else if key == "project" then rs.projects.GetOr([])
      else if key == "tag0" then rs.tag0.GetOr([])
      else if key == "tag1" then rs.tag1.GetOr([])
      else []
  {
    ValuesOfSix(QueryParam(rs), PageParam(rs), PairsOf("category", rs.category),
      PairsOf("project", rs.projects), PairsOf("tag0", rs.tag0), PairsOf("tag1", rs.tag1), key);
    ValuesOfHead(rs, key);
    ValuesOfPairsOf("category", rs.category, key);
    ValuesOfPairsOf("project", rs.projects, key);
    ValuesOfPairsOf("tag0", rs.tag0, key);
    ValuesOfPairsOf("tag1", rs.tag1, key);
  }

  /** Every pair of a block has the block's key. */
  predicate AllKeyed(p: Params, key: string) {
    forall i :: 0 <= i < |p| ==> p[i].0 == key
  }

  /** Keys whose ranks never decrease along the list. */
  predicate RankSorted(p: Params) {
    forall i, j :: 0 <= i < j < |p| ==> KeyRank(p[i].0) <= KeyRank(p[j].0)
  }

  lemma AppendBlock(p: Params, block: Params, key: string)
    requires RankSorted(p) && AllKeyed(block, key)
    requires forall i :: 0 <= i < |p| ==> KeyRank(p[i].0) <= KeyRank(key)
    ensures RankSorted(p + block)
    ensures forall i :: 0 <= i < |p + block| ==> KeyRank((p + block)[i].0) <= KeyRank(key)
  {
    var q := p + block;
    forall i, j | 0 <= i < j < |q| ensures KeyRank(q[i].0) <= KeyRank(q[j].0) {
      if j >= |p| {
        assert q[j] == block[j - |p|];
        if i >= |p| { assert q[i] == block[i - |p|]; }
      }
    }
    forall i | 0 <= i < |q| ensures KeyRank(q[i].0) <= KeyRank(key) {
      if i >= |p| { assert q[i] == block[i - |p|]; }
    }
  }

  lemma QueryValues(rs: RouteState)
    ensures Values(RouteParams(rs), "query") == if rs.query.Some? && rs.query.value != "" then [rs.query.value] else []
  {
    RouteParamsValuesAt(rs, "query");
  }

  lemma PageValues(rs: RouteState)
    ensures Values(RouteParams(rs), "page") ==
      if rs.page.Some? && rs.page.value > 1 then [NatToString(rs.page.value)] else []
  {
    RouteParamsValuesAt(rs, "page");
  }

  lemma CategoryValues(rs: RouteState)
    ensures Values(RouteParams(rs), "category") == rs.category.GetOr([])
  {
    RouteParamsValuesAt(rs, "category");
  }

  lemma ProjectValues(rs: RouteState)
    ensures Values(RouteParams(rs), "project") == rs.projects.GetOr([])
  {
    RouteParamsValuesAt(rs, "project");
  }

  lemma Tag0Values(rs: RouteState)
    ensures Values(RouteParams(rs), "tag0") == rs.tag0.GetOr([])
  {
    RouteParamsValuesAt(rs, "tag0");
  }

  lemma Tag1Values(rs: RouteState)
    ensures Values(RouteParams(rs), "tag1") == rs.tag1.GetOr([])
  {
    RouteParamsValuesAt(rs, "tag1");
  }

  lemma RouteParamsOrdered(rs: RouteState)
    ensures forall i, j :: 0 <= i < j < |RouteParams(rs)| ==>
      KeyRank(RouteParams(rs)[i].0) <= KeyRank(RouteParams(rs)[j].0)
  {
    var p0 := QueryParam(rs);
    var p1 := p0 + PageParam(rs);
    var p2 := p1 + PairsOf("category", rs.category);
    var p3 := p2 + PairsOf("project", rs.projects);
    var p4 := p3 + PairsOf("tag0", rs.tag0);
    AppendBlock([], p0, "query");
    AppendBlock(p0, PageParam(rs), "page");
    AppendBlock(p1, PairsOf("category", rs.category), "category");
    AppendBlock(p2, PairsOf("project", rs.projects), "project");
    AppendBlock(p3, PairsOf("tag0", rs.tag0), "tag0");
    AppendBlock(p4, PairsOf("tag1", rs.tag1), "tag1");
    assert p4 + PairsOf("tag1", rs.tag1) == RouteParams(rs);
  }

  /**
   * `getSearchPageURL` gives exactly `basePath` when the query is empty or
   * missing, the page is missing or at most 1, and every refinement list is
   * empty or missing; otherwise `basePath?` followed by the parameters.
   */
  lemma SearchPageURLIsBasePath(s: IndexUiState, indexName: string, basePath: string)
    ensures GetSearchPageURL(s, indexName, basePath) == basePath <==>
      (s.query.None? || s.query.value == "") &&
      (s.page.None? || s.page.value <= 1) &&
      (forall k :: IsRefinementKey(k) ==> Refinement(s.refinementList, k).None? || Refinement(s.refinementList, k).value == [])
  {
    var rs := ToRouteState(map[indexName := s], indexName);
    var p := RouteParams(rs);
    if p != [] {
      assert |basePath + "?" + Serialize(p)| > |basePath|;
    }
    var keys := [CategoryKey, ProjectsKey, Tag0Key, Tag1Key];
    if (forall k :: IsRefinementKey(k) ==> Refinement(s.refinementList, k).None? || Refinement(s.refinementList, k).value == []) {
      assert rs.category.None? && rs.projects.None? && rs.tag0.None? && rs.tag1.None?;
    } else {
      var k :| IsRefinementKey(k) && !(Refinement(s.refinementList, k).None? || Refinement(s.refinementList, k).value == []);
      assert RouteList(rs, k).Some?;
      assert p != [];
    }
  }

  /**
   * `getSearchPageURL` writes the query (if not empty), the page (if above 1),
   * then one `category`, `project`, `tag0` and `tag1` pair per list element,
   * in list order and in that key order.
   */
  lemma SearchPageParams(s: IndexUiState, indexName: string)
    ensures var p := RouteParams(ToRouteState(map[indexName := s], indexName));
      Values(p, "query") == (if s.query.Some? && s.query.value != "" then [s.query.value] else []) &&
      Values(p, "page") == (if s.page.Some? && s.page.value > 1 then [NatToString(s.page.value)] else []) &&
      Values(p, "category") == Refinement(s.refinementList, CategoryKey).GetOr([]) &&
      Values(p, "project") == Refinement(s.refinementList, ProjectsKey).GetOr([]) &&
      Values(p, "tag0") == Refinement(s.refinementList, Tag0Key).GetOr([]) &&
      Values(p, "tag1") == Refinement(s.refinementList, Tag1Key).GetOr([]) &&
      forall i, j :: 0 <= i < j < |p| ==> KeyRank(p[i].0) <= KeyRank(p[j].0)
  {
    var rs := ToRouteState(map[indexName := s], indexName);
    assert rs.query == s.query && rs.page == s.page;
    assert rs.category.GetOr([]) == Refinement(s.refinementList, CategoryKey).GetOr([]);
    assert rs.projects.GetOr([]) == Refinement(s.refinementList, ProjectsKey).GetOr([]);
    assert rs.tag0.GetOr([]) == Refinement(s.refinementList, Tag0Key).GetOr([]);
    assert rs.tag1.GetOr([]) == Refinement(s.refinementList, Tag1Key).GetOr([]);
    QueryValues(rs);
    PageValues(rs);
    CategoryValues(rs);
    ProjectValues(rs);
    Tag0Values(rs);
    Tag1Values(rs);
    RouteParamsOrdered(rs);
  }

  /** What the query-string parser gives for `key`: absent, one string, or an array of strings. */
  function ParseQuery(p: Params, key: string): (r: Raw)
    ensures r.Absent? <==> Values(p, key) == []
  {
    var vs := Values(p, key);
    if |vs| == 0 then Absent
    else if |vs| == 1 then Str(vs[0])
    else List(seq(|vs|, i requires 0 <= i < |vs| => Str(vs[i])))
  }

  /** The router's `parseURL`, given the decoded parameters of `location.search`. */
  function ParseURL(p: Params): (rs: RouteState)
    ensures rs.query.Some? && rs.category.Some? && rs.projects.Some? && rs.tag0.Some? && rs.tag1.Some?
    ensures rs.page.Some? ==> rs.page.value > 1
  {
    var q := ParseQuery(p, "query");
    var queryValue := if q.List? then q.items[0] else q;
    RouteState(
      Some(if queryValue.Str? then queryValue.s else ""),
      ParsePageParam(ParseQuery(p, "page")),
      Some(NormalizeArrayParam(ParseQuery(p, "category"))),
      Some(NormalizeArrayParam(ParseQuery(p, "project"))),
      Some(NormalizeArrayParam(ParseQuery(p, "tag0"))),
      Some(NormalizeArrayParam(ParseQuery(p, "tag1"))))
  }

  lemma {:induction false} StringsOfAllStrings(vs: seq<string>)
    ensures StringsOf(seq(|vs|, i requires 0 <= i < |vs| => Str(vs[i]))) == vs
  {
    var items := seq(|vs|, i requires 0 <= i < |vs| => Str(vs[i]));
    if vs != [] {
      assert items[1..] == seq(|vs[1..]|, i requires 0 <= i < |vs[1..]| => Str(vs[1..][i]));
      StringsOfAllStrings(vs[1..]);
    }
  }

  /**
   * The list a repeated key parses to: every value in order, except that a
   * single empty value reads as no value at all.
   */
  lemma NormalizedValues(p: Params, key: string)
    ensures NormalizeArrayParam(ParseQuery(p, key)) ==
      if Values(p, key) == [""] then [] else Values(p, key)
  {
    var vs := Values(p, key);
    if |vs| >= 2 {
      StringsOfAllStrings(vs);
    }
  }

  /** `parseURL` takes the first `query` value, or `''` when there is none. */
  lemma ParseURLQuery(p: Params)
    ensures ParseURL(p).query == Some(FirstValue(p, "query").GetOr(""))
  {
    FirstValueIsFirstOfValues(p, "query");
  }

  /**
   * Writing a route state into the URL and parsing it back gives the same
   * state, up to the defaults `parseURL` fills in: a missing query reads as
   * `''`, a page of at most 1 as missing, a missing list as empty. A list
   * holding just the empty string is the one list that does not survive.
   */
  lemma RouteURLRoundTrip(rs: RouteState)
    requires rs.category != Some([""]) && rs.projects != Some([""])
    requires rs.tag0 != Some([""]) && rs.tag1 != Some([""])
    ensures ParseURL(RouteParams(rs)) == RouteState(
      Some(rs.query.GetOr("")),
      if rs.page.Some? && rs.page.value > 1 then rs.page else None,
      Some(rs.category.GetOr([])), Some(rs.projects.GetOr([])),
      Some(rs.tag0.GetOr([])), Some(rs.tag1.GetOr([])))
  {
    var p := RouteParams(rs);
    QueryRoundTrip(rs);
    PageRoundTrip(rs);
    CategoryValues(rs);
    NormalizedValues(p, "category");
    ProjectValues(rs);
    NormalizedValues(p, "project");
    Tag0Values(rs);
    NormalizedValues(p, "tag0");
    Tag1Values(rs);
    NormalizedValues(p, "tag1");
  }

  lemma QueryRoundTrip(rs: RouteState)
    ensures ParseURL(RouteParams(rs)).query == Some(rs.query.GetOr(""))
  {
    QueryValues(rs);
  }

  lemma PageRoundTrip(rs: RouteState)
    ensures ParseURL(RouteParams(rs)).page == if rs.page.Some? && rs.page.value > 1 then rs.page else None
  {
    PageValues(rs);
    if rs.page.Some? && rs.page.value > 1 {
      ParsePageOfNumeral(rs.page.value);
    }
  }

  /** A list holding only the empty string is written as `category=` and read back as no category. */
  lemma EmptyStringListIsLost()
    ensures ParseURL(RouteParams(RouteState(None, None, Some([""]), None, None, None))).category == Some([])
  {
    var rs := RouteState(None, None, Some([""]), None, None, None);
    CategoryValues(rs);
    NormalizedValues(RouteParams(rs), "category");
  }

  /** The window title: `Fact Index: <query>` for a query that is not blank. */
  function WindowTitle(rs: RouteState): (title: string)
    ensures rs.query.None? || IsBlank(rs.query.value) ==> title == "Fact Index"
    ensures rs.query.Some? && !IsBlank(rs.query.value) ==> title == "Fact Index: " + Trim(rs.query.value)
  {
    var _ := if rs.query.Some? then TrimIsBlankIffBlank(rs.query.value); 0 else 0;
    var q := if rs.query.Some? then Trim(rs.query.value) else "";
    if q != "" then "Fact Index: " + q else "Fact Index"
  }
}
