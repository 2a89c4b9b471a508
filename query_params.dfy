/**
 * Query parameters as the ordered list of key/value pairs that a browser's
 * `URLSearchParams` holds. Percent-encoding is not modelled: a parameter list
 * is the decoded form of a query string.
 */
module QueryParams {
  import opened Wrappers
  import opened Strings

  type Params = seq<(string, string)>

  /** Every value stored under `key`, in order (`getAll`). */
  function Values(p: Params, key: string): seq<string> {
    if p == [] then []
    else (if p[0].0 == key then [p[0].1] else []) + Values(p[1..], key)
  }

  /** Some pair has key `key` (`has`). */
  predicate HasKey(p: Params, key: string) {
    exists i :: 0 <= i < |p| && p[i].0 == key
  }

  /** The first value stored under `key`, if any (`get`). */
  function FirstValue(p: Params, key: string): Option<string> {
    if p == [] then None
    else if p[0].0 == key then Some(p[0].1)
    else FirstValue(p[1..], key)
  }

  lemma {:induction false} ValuesConcat(p: Params, q: Params, key: string)
    ensures Values(p + q, key) == Values(p, key) + Values(q, key)
  {
    if p != [] {
      assert (p + q)[1..] == p[1..] + q;
      ValuesConcat(p[1..], q, key);
    } else {
      assert p + q == q;
    }
  }

  /** `get` is the first of `getAll`, and `has` says `getAll` is not empty. */
  lemma {:induction false} FirstValueIsFirstOfValues(p: Params, key: string)
    ensures HasKey(p, key) <==> Values(p, key) != []
    ensures FirstValue(p, key) == if Values(p, key) == [] then None else Some(Values(p, key)[0])
  {
    if p != [] {
      FirstValueIsFirstOfValues(p[1..], key);
      if HasKey(p[1..], key) {
        var i :| 0 <= i < |p[1..]| && p[1..][i].0 == key;
        assert p[i + 1].0 == key;
      }
      if HasKey(p, key) && p[0].0 != key {
        var i :| 0 <= i < |p| && p[i].0 == key;
        assert p[1..][i - 1].0 == key;
      }
    }
  }

  /** The pairs `(key, v)` for each `v` of `vs`, in order. */
  function Pairs(key: string, vs: seq<string>): (r: Params)
    ensures |r| == |vs| && forall i :: 0 <= i < |vs| ==> r[i] == (key, vs[i])
  {
    seq(|vs|, i requires 0 <= i < |vs| => (key, vs[i]))
  }

  lemma {:induction false} ValuesOfPairs(key: string, vs: seq<string>, other: string)
    ensures Values(Pairs(key, vs), key) == vs
    ensures other != key ==> Values(Pairs(key, vs), other) == []
    decreases |vs|
  {
    if vs != [] {
      assert Pairs(key, vs)[1..] == Pairs(key, vs[1..]);
      ValuesOfPairs(key, vs[1..], other);
    }
  }

  /** `p` with `(key, v)` added at the end (`append`). */
  function WithAppended(p: Params, key: string, v: string): Params {
    p + [(key, v)]
  }

  /** `p` with every value of `vs` appended under `key`, in order. */
  function WithAppendedAll(p: Params, key: string, vs: seq<string>): Params {
    p + Pairs(key, vs)
  }

  /** `p` without any pair whose key is `key` (`delete`). */
  function WithoutKey(p: Params, key: string): (r: Params)
    ensures |r| <= |p|
  {
    if p == [] then []
    else (if p[0].0 == key then [] else [p[0]]) + WithoutKey(p[1..], key)
  }

  /** `p` with the first pair under `key` given the value `v` and any later ones removed. */
  function ReplaceFirst(p: Params, key: string, v: string): Params
    requires HasKey(p, key)
  {
    if p[0].0 == key then [(key, v)] + WithoutKey(p[1..], key)
    else
      assert p[1..][0].0 == key || HasKey(p[1..], key) by {
        var i :| 0 <= i < |p| && p[i].0 == key;
        assert p[1..][i - 1].0 == key;
      }
      [p[0]] + ReplaceFirst(p[1..], key, v)
  }

  /**
   * `set`: when `key` is present, its first pair takes the value `v` in place
   * and the others are removed; otherwise `(key, v)` is appended.
   */
  function WithSet(p: Params, key: string, v: string): Params {
    if HasKey(p, key) then ReplaceFirst(p, key, v) else p + [(key, v)]
  }

  lemma {:induction false} WithoutKeyValues(p: Params, key: string, other: string)
    ensures Values(WithoutKey(p, key), key) == []
    ensures other != key ==> Values(WithoutKey(p, key), other) == Values(p, other)
  {
    if p != [] {
      WithoutKeyValues(p[1..], key, other);
      var head: Params := if p[0].0 == key then [] else [p[0]];
      ValuesConcat(head, WithoutKey(p[1..], key), key);
      ValuesConcat(head, WithoutKey(p[1..], key), other);
    }
  }

  lemma {:induction false} ReplaceFirstValues(p: Params, key: string, v: string, other: string)
    requires HasKey(p, key)
    ensures Values(ReplaceFirst(p, key, v), key) == [v]
    ensures other != key ==> Values(ReplaceFirst(p, key, v), other) == Values(p, other)
  {
    if p[0].0 == key {
      WithoutKeyValues(p[1..], key, other);
      ValuesConcat([(key, v)], WithoutKey(p[1..], key), key);
      ValuesConcat([(key, v)], WithoutKey(p[1..], key), other);
    } else {
      assert HasKey(p[1..], key) by {
        var i :| 0 <= i < |p| && p[i].0 == key;
        assert p[1..][i - 1].0 == key;
      }
      ReplaceFirstValues(p[1..], key, v, other);
      ValuesConcat([p[0]], ReplaceFirst(p[1..], key, v), key);
      ValuesConcat([p[0]], ReplaceFirst(p[1..], key, v), other);
    }
  }

  /** After `set(key, v)`, `key` holds exactly `[v]` and every other key keeps its values. */
  lemma WithSetValues(p: Params, key: string, v: string, other: string)
    ensures Values(WithSet(p, key, v), key) == [v]
    ensures other != key ==> Values(WithSet(p, key, v), other) == Values(p, other)
  {
    if HasKey(p, key) {
      ReplaceFirstValues(p, key, v, other);
    } else {
      FirstValueIsFirstOfValues(p, key);
      ValuesConcat(p, [(key, v)], key);
      ValuesConcat(p, [(key, v)], other);
    }
  }

  /** After `delete(key)`, `key` holds nothing and every other key keeps its values. */
  lemma WithoutKeyKeepsOthers(p: Params, key: string, other: string)
    ensures !HasKey(WithoutKey(p, key), key)
    ensures other != key ==> Values(WithoutKey(p, key), other) == Values(p, other)
  {
    WithoutKeyValues(p, key, other);
    FirstValueIsFirstOfValues(WithoutKey(p, key), key);
  }

  /** The query string without its leading `?` (`toString`), encoding left out. */
  function Serialize(p: Params): (r: string)
    ensures r == "" <==> p == []
  {
    if p == [] then ""
    else if |p| == 1 then p[0].0 + "=" + p[0].1
    else p[0].0 + "=" + p[0].1 + "&" + Serialize(p[1..])
  }

  /** The facet filters a search hit carries (category, projects, two tag levels). */
  datatype Facets = Facets(category: string, projects: seq<string>, tags0: seq<string>, tags1: seq<string>)

  /** Values a facet adds under its parameter key (an empty category adds none). */
  function FacetValues(f: Facets, key: string): seq<string> {
    if key == "category" then (if f.category != "" then [f.category] else [])
    else if key == "project" then f.projects
    else if key == "tag0" then f.tags0
    else if key == "tag1" then f.tags1
    else []
  }

  predicate IsFacetKey(key: string) {
    key == "category" || key == "project" || key == "tag0" || key == "tag1"
  }

  /** Append the facet's values under `key` unless `key` is already present. */
  function MergeKey(p: Params, f: Facets, key: string): Params {
    if !HasKey(p, key) && |FacetValues(f, key)| > 0 then WithAppendedAll(p, key, FacetValues(f, key)) else p
  }

  /**
   * The facet merge shared by the fact card and the fact-id fallback: each of
   * category, project, tag0 and tag1 is appended only when the parameters do
   * not already have that key.
   */
  function MergeFacets(p: Params, f: Facets): Params {
    MergeKey(MergeKey(MergeKey(MergeKey(p, f, "category"), f, "project"), f, "tag0"), f, "tag1")
  }

  lemma MergeKeyPrefix(p: Params, f: Facets, key: string)
    ensures |p| <= |MergeKey(p, f, key)| && MergeKey(p, f, key)[..|p|] == p
  {
    assert (p + Pairs(key, FacetValues(f, key)))[..|p|] == p;
  }

  lemma MergeKeySame(p: Params, f: Facets, key: string)
    ensures Values(MergeKey(p, f, key), key) ==
      if !HasKey(p, key) then FacetValues(f, key) else Values(p, key)
  {
    FirstValueIsFirstOfValues(p, key);
    var vs := FacetValues(f, key);
    ValuesConcat(p, Pairs(key, vs), key);
    ValuesOfPairs(key, vs, key);
  }

  lemma MergeKeyOther(p: Params, f: Facets, key: string, other: string)
    requires other != key
    ensures HasKey(MergeKey(p, f, key), other) == HasKey(p, other)
    ensures Values(MergeKey(p, f, key), other) == Values(p, other)
  {
    var vs := FacetValues(f, key);
    ValuesConcat(p, Pairs(key, vs), other);
    ValuesOfPairs(key, vs, other);
    FirstValueIsFirstOfValues(p, other);
    FirstValueIsFirstOfValues(MergeKey(p, f, key), other);
  }

  /**
   * Merging facets keeps every existing pair as a prefix; a facet key that was
   * present keeps exactly its values, an absent one gets the facet's values,
   * and any other key is untouched.
   */
  lemma MergeFacetsValues(p: Params, f: Facets, key: string)
    ensures |p| <= |MergeFacets(p, f)| && MergeFacets(p, f)[..|p|] == p
    ensures Values(MergeFacets(p, f), key) ==
      if IsFacetKey(key) && !HasKey(p, key) then FacetValues(f, key) else Values(p, key)
  {
    var p1 := MergeKey(p, f, "category");
    var p2 := MergeKey(p1, f, "project");
    var p3 := MergeKey(p2, f, "tag0");
    var r := MergeKey(p3, f, "tag1");
    MergeKeyPrefix(p, f, "category");
    MergeKeyPrefix(p1, f, "project");
    MergeKeyPrefix(p2, f, "tag0");
    MergeKeyPrefix(p3, f, "tag1");
    assert r[..|p|] == p by {
      assert r[..|p3|][..|p|] == p;
    }
    FirstValueIsFirstOfValues(p, key);
    if key == "category" {
      MergeKeySame(p, f, key);
      MergeKeyOther(p1, f, "project", key);
      MergeKeyOther(p2, f, "tag0", key);
      MergeKeyOther(p3, f, "tag1", key);
    } else if key == "project" {
      MergeKeyOther(p, f, "category", key);
      MergeKeySame(p1, f, key);
      MergeKeyOther(p2, f, "tag0", key);
      MergeKeyOther(p3, f, "tag1", key);
    } else if key == "tag0" {
      MergeKeyOther(p, f, "category", key);
      MergeKeyOther(p1, f, "project", key);
      MergeKeySame(p2, f, key);
      MergeKeyOther(p3, f, "tag1", key);
    } else if key == "tag1" {
      MergeKeyOther(p, f, "category", key);
      MergeKeyOther(p1, f, "project", key);
      MergeKeyOther(p2, f, "tag0", key);
      MergeKeySame(p3, f, key);
    } else {
      MergeKeyOther(p, f, "category", key);
      MergeKeyOther(p1, f, "project", key);
      MergeKeyOther(p2, f, "tag0", key);
      MergeKeyOther(p3, f, "tag1", key);
    }
  }

  /**
   * The parameters that put one fact card in focus: `factId` is set to `id`,
   * then the fact's facets are merged in.
   */
  function FocusParams(p: Params, id: string, f: Facets): Params {
    MergeFacets(WithSet(p, "factId", id), f)
  }

  /**
   * Focusing leaves exactly one `factId`, equal to `id`; a facet key that was
   * absent takes the fact's values, one that was present keeps its own, and
   * every other key is untouched.
   */
  lemma FocusParamsValues(p: Params, id: string, f: Facets, key: string)
    ensures Values(FocusParams(p, id, f), "factId") == [id]
    ensures FirstValue(FocusParams(p, id, f), "factId") == Some(id)
    ensures key != "factId" ==>
              Values(FocusParams(p, id, f), key) ==
              (if IsFacetKey(key) && !HasKey(p, key) then FacetValues(f, key) else Values(p, key))
  {
    var q := WithSet(p, "factId", id);
    WithSetValues(p, "factId", id, key);
    MergeFacetsValues(q, f, "factId");
    MergeFacetsValues(q, f, key);
    FirstValueIsFirstOfValues(p, key);
    FirstValueIsFirstOfValues(q, key);
    FirstValueIsFirstOfValues(FocusParams(p, id, f), "factId");
  }

  /** A `URLSearchParams` object, whose pair list its methods change in place. */
  class SearchParams {
    var entries: Params

    constructor (init: Params)
      ensures entries == init
    {
      entries := init;
    }

    function Get(key: string): Option<string>
      reads this
    {
      FirstValue(entries, key)
    }

    predicate Has(key: string)
      reads this
    {
      HasKey(entries, key)
    }

    method Set(key: string, v: string)
      modifies this
      ensures entries == WithSet(old(entries), key, v)
    {
      entries := WithSet(entries, key, v);
    }

    method Append(key: string, v: string)
      modifies this
      ensures entries == WithAppended(old(entries), key, v)
    {
      entries := entries + [(key, v)];
    }

    method Delete(key: string)
      modifies this
      ensures entries == WithoutKey(old(entries), key)
    {
      entries := WithoutKey(entries, key);
    }

    function ToString(): string
      reads this
    {
      Serialize(entries)
    }
  }

  /** `values.forEach((v) => params.append(key, v))`. */
  method AppendEach(params: SearchParams, key: string, values: seq<string>)
    modifies params
    ensures params.entries == WithAppendedAll(old(params.entries), key, values)
  {
    var i := 0;
    while i < |values|
      invariant 0 <= i <= |values|
      invariant params.entries == WithAppendedAll(old(params.entries), key, values[..i])
    {
      params.Append(key, values[i]);
      assert values[..i + 1] == values[..i] + [values[i]];
      assert Pairs(key, values[..i + 1]) == Pairs(key, values[..i]) + [(key, values[i])];
      i := i + 1;
    }
    assert values[..i] == values;
  }

  /** The in-place facet merge on a `URLSearchParams` object. */
  method ApplyFacets(params: SearchParams, f: Facets)
    modifies params
    ensures params.entries == MergeFacets(old(params.entries), f)
  {
    if !params.Has("category") && f.category != "" {
      params.Append("category", f.category);
      assert Pairs("category", [f.category]) == [("category", f.category)];
    }
    if !params.Has("project") && |f.projects| > 0 {
      AppendEach(params, "project", f.projects);
    }
    if !params.Has("tag0") && |f.tags0| > 0 {
      AppendEach(params, "tag0", f.tags0);
    }
    if !params.Has("tag1") && |f.tags1| > 0 {
      AppendEach(params, "tag1", f.tags1);
    }
  }
}
