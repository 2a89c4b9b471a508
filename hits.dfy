/**
 * A search hit as the web components receive it: a record of the search
 * index whose fields may be missing. The index stores the two tag levels
 * under the flat keys `tags.lvl0` and `tags.lvl1`; a nested `tags` object
 * with `lvl0`/`lvl1` members is a separate, optional field.
 */
module Hits {
  import opened Wrappers
  import opened Strings
  import Crawler

  /** The members of a nested `tags` object. */
  datatype NestedTags = NestedTags(lvl0: Option<seq<string>>, lvl1: Option<seq<string>>)

  datatype SearchHit = SearchHit(
    objectID: string,
    title: string,
    url: Option<string>,
    blurb: Option<string>,
    fact: Option<string>,
    content: Option<string>,
    category: Option<string>,
    projects: Option<seq<string>>,
    /** the value under the flat key `tags.lvl0` */
    tagsLvl0: Option<seq<string>>,
    /** the value under the flat key `tags.lvl1` */
    tagsLvl1: Option<seq<string>>,
    /** the value under the key `tags` */
    tags: Option<NestedTags>)

  /** A string field JavaScript treats as true: present and not empty. */
  predicate Truthy(v: Option<string>) {
    v.Some? && v.value != ""
  }

  /** `v || fallback` for a string field. */
  function OrElse(v: Option<string>, fallback: Option<string>): (r: Option<string>)
    ensures Truthy(v) ==> r == v
    ensures !Truthy(v) ==> r == fallback
  {
    if Truthy(v) then v else fallback
  }

  /** `list || []`: a present list, even an empty one, is kept. */
  function ListOr(v: Option<seq<string>>, fallback: seq<string>): seq<string> {
    if v.Some? then v.value else fallback
  }

  /** The hit a crawled post becomes, under the object ID the index gives it. */
  function HitOfPost(r: Crawler.PostRecord, objectID: string): (hit: SearchHit)
    ensures hit.tags.None? && hit.tagsLvl1 == Some(r.tagsLvl1) && hit.url == Some(r.url)
  {
    SearchHit(objectID, r.title, Some(r.url), r.blurb, r.fact, None, Some(r.category),
      Some(r.projects), Some(r.tagsLvl0), Some(r.tagsLvl1), None)
  }
}
