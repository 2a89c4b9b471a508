/**
 * The card for a blog post (apps/web/src/components/PostCard/PostCard.tsx):
 * where the card links and which tags it shows.
 */
module PostCard {
  import opened Wrappers
  import opened Strings
  import opened Hits
  import Crawler

  /** The link target: the blurb when it is a web address, else the object ID. */
  function LinkTarget(hit: SearchHit): (href: string)
    ensures href == hit.objectID || (Truthy(hit.blurb) && href == hit.blurb.value)
    ensures StartsWith(href, "http") || href == hit.objectID
    ensures !StartsWith(hit.objectID, "http") ==>
      (StartsWith(href, "http") <==> hit.blurb.Some? && StartsWith(hit.blurb.value, "http"))
    ensures Truthy(hit.blurb) && StartsWith(hit.blurb.value, "http") ==> href == hit.blurb.value
    ensures !(Truthy(hit.blurb) && StartsWith(hit.blurb.value, "http")) ==> href == hit.objectID
  {
    if Truthy(hit.blurb) && StartsWith(hit.blurb.value, "http") then hit.blurb.value else hit.objectID
  }

  /** The tag list as written: the nested `tags.lvl1`, else the nested `tags.lvl0`, else none. */
  function TagsAsWritten(hit: SearchHit): (tags: seq<string>)
    ensures hit.tags.None? ==> tags == []
    ensures hit.tags.Some? && hit.tags.value.lvl1.Some? ==> tags == hit.tags.value.lvl1.value
  {
    var nested := if hit.tags.Some? then hit.tags.value else NestedTags(None, None);
    ListOr(nested.lvl1, ListOr(nested.lvl0, []))
  }

  /** The tag list read from the keys the index stores: `tags.lvl1`, else `tags.lvl0`, else none. */
  function Tags(hit: SearchHit): (tags: seq<string>)
    ensures hit.tagsLvl1.Some? ==> tags == hit.tagsLvl1.value
    ensures hit.tagsLvl1.None? && hit.tagsLvl0.Some? ==> tags == hit.tagsLvl0.value
    ensures hit.tagsLvl1.None? && hit.tagsLvl0.None? ==> tags == []
  {
    ListOr(hit.tagsLvl1, ListOr(hit.tagsLvl0, []))
  }

  /** `tags.slice(0, 3)`. */
  function ShownTags(tags: seq<string>): (shown: seq<string>)
    ensures |shown| == if |tags| < 3 then |tags| else 3
    ensures shown == tags[..|shown|]
  {
    if |tags| <= 3 then tags else tags[..3]
  }

  /** What the card renders. */
  datatype PostCardView = PostCardView(href: string, ariaLabel: string, showTags: bool, tags: seq<string>)

  function ViewFor(hit: SearchHit, tags: seq<string>): PostCardView {
    PostCardView(LinkTarget(hit), "Read post: " + hit.title, |tags| > 0, ShownTags(tags))
  }

  /** The card as written. */
  function ViewAsWritten(hit: SearchHit): PostCardView {
    ViewFor(hit, TagsAsWritten(hit))
  }

  /** The card with tags read from the index's keys. */
  function View(hit: SearchHit): (v: PostCardView)
    ensures v.href == LinkTarget(hit) && v.ariaLabel == "Read post: " + hit.title
    ensures v.showTags <==> Tags(hit) != []
    ensures |v.tags| == (if |Tags(hit)| < 3 then |Tags(hit)| else 3) && v.tags == Tags(hit)[..|v.tags|]
  {
    ViewFor(hit, Tags(hit))
  }

  /**
   * The card shows the first three tags in order, shows the tag block exactly
   * when there is a tag, and labels the link with the title.
   */
  lemma ViewShape(hit: SearchHit)
    ensures var v := View(hit);
      v.ariaLabel == "Read post: " + hit.title && v.ariaLabel[11..] == hit.title &&
      (v.showTags <==> |Tags(hit)| > 0) &&
      |v.tags| <= 3 && (forall i :: 0 <= i < |v.tags| ==> v.tags[i] == Tags(hit)[i]) &&
      (|Tags(hit)| >= 3 ==> |v.tags| == 3)
  {
  }

  /** An empty `tags.lvl1` list is still a list, so it hides `tags.lvl0`. */
  lemma EmptyLevelOneHidesLevelZero(hit: SearchHit)
    requires hit.tagsLvl1 == Some([])
    ensures Tags(hit) == [] && !View(hit).showTags
  {
  }

  /**
   * A crawled post carries its tags under the flat keys only, so the card as
   * written finds no tags for it, while reading the flat keys shows them.
   */
  lemma CrawledPostTagsLostAsWritten(r: Crawler.PostRecord, objectID: string)
    requires |r.tagsLvl1| > 0
    ensures !ViewAsWritten(HitOfPost(r, objectID)).showTags
    ensures View(HitOfPost(r, objectID)).showTags
    ensures View(HitOfPost(r, objectID)).tags[0] == r.tagsLvl1[0]
  {
  }

  /** A post crawled with keywords gets level-one tags, so the lost tags above occur. */
  lemma KeywordsGiveTags(page: Crawler.Page)
    requires Crawler.ExtractRecord(page) != []
    requires page.keywords.Some? && page.keywords.value != ""
    requires forall p :: p in Split(page.keywords.value, ",") ==> Trim(p) != ""
    ensures |Crawler.ExtractRecord(page)[0].tagsLvl1| == |Split(page.keywords.value, ",")| >= 1
  {
    Crawler.KeywordTagsInOrder(Split(page.keywords.value, ","));
  }
}
