/**
 * The choice between a post card and a fact card for one search hit
 * (apps/web/src/components/SearchPage/UnifiedHitCard.tsx).
 */
module UnifiedHitCard {
  import opened Wrappers
  import opened Strings
  import opened Hits
  import Crawler

  datatype CardKind = PostCardKind | FactCardKind

  /** `isBlogPost`: a non-empty url, or a blurb that starts with `http`. */
  predicate IsBlogPost(hit: SearchHit) {
    Truthy(hit.url) || (Truthy(hit.blurb) && StartsWith(hit.blurb.value, "http"))
  }

  function CardFor(hit: SearchHit): CardKind {
    if IsBlogPost(hit) then PostCardKind else FactCardKind
  }

  /**
   * A hit becomes a fact card exactly when its url is missing or empty and
   * its blurb is missing, empty, or plain text not starting with `http`.
   */
  lemma CardChoice(hit: SearchHit)
    ensures CardFor(hit) == FactCardKind <==>
      (hit.url.None? || hit.url.value == "") &&
      (hit.blurb.None? || !StartsWith(hit.blurb.value, "http"))
  {
    if hit.blurb.Some? && hit.blurb.value == "" {
      assert !StartsWith(hit.blurb.value, "http");
    }
  }

  /** Every crawled post renders as a post card. */
  lemma CrawledPostsArePosts(page: Crawler.Page, objectID: string)
    requires Crawler.ExtractRecord(page) != []
    ensures CardFor(HitOfPost(Crawler.ExtractRecord(page)[0], objectID)) == PostCardKind
  {
    Crawler.ExtractRecordShape(page);
  }
}
