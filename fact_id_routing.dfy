/**
 * Deep links to a fact (apps/web/src/hooks/useFactIdRouting.ts): the hook
 * reads `factId`, scrolls its card into view once, and, when the link carries
 * no filters, looks the fact up once and adds its facets to the address. The
 * DOM, the observer and the search service are inputs: whether the card is
 * rendered, whether the results container exists, and what the lookup returned.
 */
module FactIdRouting {
  import opened Wrappers
  import opened Strings
  import opened QueryParams

  /** `searchParams?.get('factId') ?? null`. */
  function FactIdOf(sp: Option<Params>): (id: Option<string>)
    ensures sp.None? ==> id.None?
    ensures sp.Some? ==> (id.Some? <==> HasKey(sp.value, "factId"))
    ensures sp.Some? && id.Some? ==> Values(sp.value, "factId") != [] && id.value == Values(sp.value, "factId")[0]
  {
    if sp.None? then None
    else
      FirstValueIsFirstOfValues(sp.value, "factId");
      FirstValue(sp.value, "factId")
  }

  /** A parameter JavaScript treats as set: present with a non-empty first value. */
  predicate IsSet(p: Params, key: string) {
    FirstValue(p, key).Some? && FirstValue(p, key).value != ""
  }

  const FilterKeys := ["category", "project", "tag0", "tag1", "query"]

  /** `hasFilterParams`. */
  predicate HasFilterParams(sp: Option<Params>) {
    sp.Some? &&
    (IsSet(sp.value, "category") || IsSet(sp.value, "project") || IsSet(sp.value, "tag0") ||
     IsSet(sp.value, "tag1") || IsSet(sp.value, "query"))
  }

  /** Filters are present exactly when one of the five keys has a non-empty first value. */
  lemma HasFilterParamsIff(sp: Option<Params>)
    ensures HasFilterParams(sp) <==> sp.Some? && exists k :: k in FilterKeys && IsSet(sp.value, k)
  {
    if HasFilterParams(sp) {
      var p := sp.value;
      if IsSet(p, "category") { assert "category" in FilterKeys; }
      else if IsSet(p, "project") { assert "project" in FilterKeys; }
      else if IsSet(p, "tag0") { assert "tag0" in FilterKeys; }
      else if IsSet(p, "tag1") { assert "tag1" in FilterKeys; }
      else { assert "query" in FilterKeys; }
    }
  }

  /** The fields the lookup retrieves. */
  datatype FactMetadata = FactMetadata(
    objectID: string,
    category: Option<string>,
    projects: Option<seq<string>>,
    tagsLvl0: Option<seq<string>>,
    tagsLvl1: Option<seq<string>>)

  function MetadataFacets(m: FactMetadata): Facets {
    Facets(m.category.GetOr(""),
      if m.projects.Some? then m.projects.value else [],
      if m.tagsLvl0.Some? then m.tagsLvl0.value else [],
      if m.tagsLvl1.Some? then m.tagsLvl1.value else [])
  }

  /** The address the fallback writes back: the path and the focused parameters. */
  function FallbackUrl(pathname: string, windowSearch: Params, factId: string, m: FactMetadata): string {
    pathname + "?" + Serialize(FocusParams(windowSearch, factId, MetadataFacets(m)))
  }

  /**
   * The fallback focuses the fact and adds each facet only where the address
   * lacks that key; every other parameter is kept.
   */
  lemma FallbackKeepsExisting(windowSearch: Params, factId: string, m: FactMetadata, key: string)
    ensures Values(FocusParams(windowSearch, factId, MetadataFacets(m)), "factId") == [factId]
    ensures key != "factId" && HasKey(windowSearch, key) ==>
      Values(FocusParams(windowSearch, factId, MetadataFacets(m)), key) == Values(windowSearch, key)
    ensures key != "factId" && IsFacetKey(key) && !HasKey(windowSearch, key) ==>
      Values(FocusParams(windowSearch, factId, MetadataFacets(m)), key) == FacetValues(MetadataFacets(m), key)
  {
    FocusParamsValues(windowSearch, factId, MetadataFacets(m), key);
  }

  /** The search request of `fetchFactMetadata`. */
  datatype SearchRequest = SearchRequest(
    indexName: string,
    query: string,
    filters: string,
    hitsPerPage: nat,
    attributesToRetrieve: seq<string>)

  function MetadataRequest(factId: string, indexName: string): (r: SearchRequest)
    ensures r.query == "" && r.hitsPerPage == 1 && r.indexName == indexName
    ensures StartsWith(r.filters, "objectID:") && r.filters[9..] == factId
  {
    SearchRequest(indexName, "", "objectID:" + factId, 1,
      ["objectID", "category", "projects", "tags.lvl0", "tags.lvl1"])
  }

  /** The first result of a search: a hit list, or a result of another kind. */
  datatype SearchResult = HitsResult(hits: seq<FactMetadata>) | OtherResult

  /** How the search call ended: it threw, or it returned its results. */
  datatype SearchOutcome = Threw | Results(results: seq<SearchResult>)

  /**
   * `fetchFactMetadata`: no lookup without both credentials; otherwise the
   * first hit of the first result, and null when the call throws, when there
   * is no first result (reading it throws) or when it holds no hit.
   */
  function FetchFactMetadata(appId: string, apiKey: string, outcome: SearchOutcome): Option<FactMetadata> {
    if appId == "" || apiKey == "" then None
    else match outcome
      case Threw => None
      case Results(results) =>
        if |results| == 0 then None
        else match results[0]
          case HitsResult(hits) => if |hits| > 0 then Some(hits[0]) else None
          case OtherResult => None
  }

  /** The lookup yields a fact exactly when credentials are set and the first result has a hit, and then it is that hit. */
  lemma FetchFactMetadataIff(appId: string, apiKey: string, outcome: SearchOutcome)
    ensures FetchFactMetadata(appId, apiKey, outcome).Some? <==>
      appId != "" && apiKey != "" && outcome.Results? && |outcome.results| > 0 &&
      outcome.results[0].HitsResult? && |outcome.results[0].hits| > 0
    ensures FetchFactMetadata(appId, apiKey, outcome).Some? ==>
      FetchFactMetadata(appId, apiKey, outcome).value == outcome.results[0].hits[0]
    ensures appId == "" || apiKey == "" || outcome.Threw? ==> FetchFactMetadata(appId, apiKey, outcome).None?
  {
  }

  /** The hook's refs, with counts of the scrolls and lookups it started since they were last reset. */
  class Routing {
    var scrollAttempted: bool
    var fallbackSearchApplied: bool
    var observing: bool
    var scrollRequests: nat
    var lookups: nat

    /** Each one-shot flag is set exactly when its action happened once, and it never happens twice. */
    predicate Valid()
      reads this
    {
      scrollRequests <= 1 && (scrollAttempted <==> scrollRequests == 1) &&
      lookups <= 1 && (fallbackSearchApplied <==> lookups == 1)
    }

    constructor()
      ensures Valid() && !scrollAttempted && !fallbackSearchApplied && !observing
    {
      scrollAttempted := false;
      fallbackSearchApplied := false;
      observing := false;
      scrollRequests := 0;
      lookups := 0;
    }

    /** `scrollToCard`: scroll once, when the card's link is rendered. */
    method ScrollToCard(cardRendered: bool)
      requires Valid()
      modifies this
      ensures Valid()
      ensures scrollAttempted == (old(scrollAttempted) || cardRendered)
      ensures scrollRequests == if !old(scrollAttempted) && cardRendered then 1 else old(scrollRequests)
      ensures fallbackSearchApplied == old(fallbackSearchApplied) && lookups == old(lookups)
      ensures observing == old(observing)
    {
      if !scrollAttempted && cardRendered {
        scrollAttempted := true;
        scrollRequests := scrollRequests + 1;
      }
    }

    /**
     * One run of the effect, after the previous run's observer was
     * disconnected. Returns the fact ID whose metadata is looked up, if any.
     */
    method RunEffect(sp: Option<Params>, cardRendered: bool, containerFound: bool) returns (lookup: Option<string>)
      requires Valid()
      modifies this
      ensures Valid()
      ensures var id := FactIdOf(sp);
        (id.None? || id.value == "") ==>
          !scrollAttempted && !fallbackSearchApplied && !observing && lookup.None? && scrollRequests == 0 && lookups == 0
      ensures var id := FactIdOf(sp);
        id.Some? && id.value != "" ==>
          observing == containerFound &&
          scrollAttempted == (old(scrollAttempted) || cardRendered) &&
          (old(scrollAttempted) ==> scrollRequests == old(scrollRequests)) &&
          (lookup.Some? <==> !old(fallbackSearchApplied) && !HasFilterParams(sp)) &&
          (lookup.Some? ==> lookup == id) &&
          (old(fallbackSearchApplied) ==> lookups == old(lookups)) &&
          fallbackSearchApplied == (old(fallbackSearchApplied) || lookup.Some?) &&
          lookups == old(lookups) + (if lookup.Some? then 1 else 0) &&
          scrollRequests == (if !old(scrollAttempted) && cardRendered then 1 else old(scrollRequests))
    {
      observing := false;
      var factId := FactIdOf(sp);
      if factId.None? || factId.value == "" {
        scrollAttempted := false;
        fallbackSearchApplied := false;
        scrollRequests := 0;
        lookups := 0;
        return None;
      }
      ScrollToCard(cardRendered);
      observing := containerFound;
      if fallbackSearchApplied || HasFilterParams(sp) {
        lookup := None;
      } else {
        fallbackSearchApplied := true;
        lookups := lookups + 1;
        lookup := factId;
      }
    }

    /** The observer's callback: try to scroll, and stop observing once scrolled. */
    method OnMutation(cardRendered: bool)
      requires Valid() && observing
      modifies this
      ensures Valid()
      ensures scrollAttempted == (old(scrollAttempted) || cardRendered)
      ensures observing == !scrollAttempted
      ensures old(scrollAttempted) ==> scrollRequests == old(scrollRequests)
      ensures scrollRequests == if !old(scrollAttempted) && cardRendered then 1 else old(scrollRequests)
      ensures fallbackSearchApplied == old(fallbackSearchApplied) && lookups == old(lookups)
    {
      ScrollToCard(cardRendered);
      if scrollAttempted {
        observing := false;
      }
    }
  }

  /**
   * The metadata lookup happens at most once while the fact ID stays: the
   * first run of the effect looks up exactly when the fallback has not run
   * and no filter is set, and a second run with the same parameters, after
   * the observer has fired in between, never does.
   */
  method LookupOnceAcrossObserver(r: Routing, sp: Option<Params>, cardRendered: bool, containerFound: bool)
    returns (first: Option<string>, second: Option<string>)
    requires r.Valid()
    modifies r
    ensures r.Valid()
    ensures first.Some? <==>
      FactIdOf(sp).Some? && FactIdOf(sp).value != "" && !old(r.fallbackSearchApplied) && !HasFilterParams(sp)
    ensures second.None?
    ensures first.Some? ==> r.lookups == 1 && r.fallbackSearchApplied
  {
    first := r.RunEffect(sp, cardRendered, containerFound);
    if r.observing {
      r.OnMutation(cardRendered);
    }
    second := r.RunEffect(sp, cardRendered, containerFound);
  }

  /** The rest of `applyMetadataFilters` once the lookup has answered: the address to write, if any. */
  method CompleteFallback(metadata: Option<FactMetadata>, pathname: string, windowSearch: Params, factId: string)
    returns (newUrl: Option<string>)
    ensures metadata.None? ==> newUrl.None?
    ensures metadata.Some? ==> newUrl == Some(FallbackUrl(pathname, windowSearch, factId, metadata.value))
  {
    if metadata.None? {
      return None;
    }
    var params := new SearchParams(windowSearch);
    params.Set("factId", factId);
    ApplyFacets(params, MetadataFacets(metadata.value));
    newUrl := Some(pathname + "?" + params.ToString());
  }
}
