/**
 * The infinite result list (apps/web/src/components/SearchPage/InfiniteHits.tsx):
 * a crawlable link to the next page, and a sentinel whose intersection asks
 * for more hits until the last page.
 */
module InfiniteHits {
  import opened Wrappers
  import opened Strings
  import opened Numerals
  import opened QueryParams
  import opened Hits

  /** `currentPageRaw ? Number(currentPageRaw) : 1`. */
  function CurrentPage(p: Params): JsNumber {
    var raw := FirstValue(p, "page");
    if raw.Some? && raw.value != "" then ToNumber(raw.value) else Finite(1)
  }

  /** `Number.isFinite(currentPage) && currentPage > 0 ? currentPage + 1 : 2`. */
  function NextPage(p: Params): (n: nat)
    ensures n >= 2
  {
    match CurrentPage(p)
    case Finite(v) => if v > 0 then v + 1 else 2
    case NaN => 2
  }

  function NextPageParams(p: Params): Params {
    WithSet(p, "page", NatToString(NextPage(p)))
  }

  /** `nextPageHref`. */
  function NextPageHref(p: Params): (href: string)
    ensures StartsWith(href, "?") && |href| > 1
  {
    var query := Serialize(NextPageParams(p));
    if query != "" then "?" + query else "?page=2"
  }

  /**
   * The link is a query string holding exactly one `page`, the next page
   * number, with every other parameter kept.
   */
  lemma NextPageHrefShape(p: Params, key: string)
    ensures NextPageHref(p) == "?" + Serialize(NextPageParams(p))
    ensures NextPageHref(p)[0] == '?'
    ensures Values(NextPageParams(p), "page") == [NatToString(NextPage(p))]
    ensures key != "page" ==> Values(NextPageParams(p), key) == Values(p, key)
  {
    WithSetValues(p, "page", NatToString(NextPage(p)), key);
  }

  /**
   * Page `n > 0` links to `n + 1`; no page, page 0, a negative page or a
   * non-numeric page links to 2.
   */
  lemma NextPageCases(p: Params, n: nat)
    ensures FirstValue(p, "page") == Some(NatToString(n)) && n > 0 ==> NextPage(p) == n + 1
    ensures FirstValue(p, "page") == Some(NatToString(n)) && n == 0 ==> NextPage(p) == 2
    ensures FirstValue(p, "page").None? ==> NextPage(p) == 2
    ensures CurrentPage(p).NaN? ==> NextPage(p) == 2
  {
    NumberOfNatToString(n);
  }

  /** The number of intersecting entries. */
  function CountIntersecting(entries: seq<bool>): (n: nat)
    ensures n <= |entries|
    ensures n == 0 <==> forall i :: 0 <= i < |entries| ==> !entries[i]
  {
    if entries == [] then 0
    else CountIntersecting(entries[..|entries| - 1]) + (if entries[|entries| - 1] then 1 else 0)
  }

  /** The observer's callback: one `showMore` per intersecting entry, none on the last page. */
  method OnIntersect(entries: seq<bool>, isLastPage: bool) returns (showMoreCalls: nat)
    ensures showMoreCalls == if isLastPage then 0 else CountIntersecting(entries)
  {
    showMoreCalls := 0;
    var i := 0;
    while i < |entries|
      invariant 0 <= i <= |entries|
      invariant showMoreCalls == if isLastPage then 0 else CountIntersecting(entries[..i])
    {
      assert entries[..i + 1][..i] == entries[..i];
      if entries[i] && !isLastPage {
        showMoreCalls := showMoreCalls + 1;
      }
      i := i + 1;
    }
    assert entries[..i] == entries;
  }

  /** What the list renders: one item per hit, keyed by object ID, and the link unless on the last page. */
  datatype ListView = ListView(itemKeys: seq<string>, loadMoreHref: Option<string>)

  function Render(hits: seq<SearchHit>, isLastPage: bool, p: Params): (v: ListView)
    ensures |v.itemKeys| == |hits|
    ensures forall i :: 0 <= i < |hits| ==> v.itemKeys[i] == hits[i].objectID
    ensures v.loadMoreHref.Some? <==> !isLastPage
    ensures v.loadMoreHref.Some? ==> v.loadMoreHref.value == NextPageHref(p)
  {
    ListView(seq(|hits|, i requires 0 <= i < |hits| => hits[i].objectID),
      if isLastPage then None else Some(NextPageHref(p)))
  }
}
