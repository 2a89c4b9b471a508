# Portfolio site: search, indexing and small state machines, in Dafny

This project models the logic of a portfolio site. The site has a Next.js front end with a fact/post search built on Algolia InstantSearch. Indexing scripts in Python and JavaScript fill the search indices. The model covers:

- **Search URL state**:
  - the mapping between the InstantSearch UI state, the route state and the query string (`searchRouting.ts`);
  - the fact-card deep links (`FactCard.tsx`, `useFactIdRouting.ts`);
  - the infinite-hits "next page" link (`InfiniteHits.tsx`).

  URL parameters are a sequence of key/value pairs, as `URLSearchParams` holds them. `QueryParams.SearchParams` is the mutable builder the components append into.
- **Indexing transforms**:
  - the brace-balance line scanner and record builder of the system-docs index (`generate_system_docs_index.py`);
  - fact extraction, project enrichment, the tag-overlap connection graph and visual references (`build_knowledge_graph.py`);
  - the crawler's per-page record extractor (`crawler.js`): title, description, final URL, slug and 32-bit hash, keyword tags, signal and content truncation.
- **Validators and selectors**:
  - the Algolia credential checks (`algolia.ts`);
  - the document viewer's line splitting and `#L<a>-L<b>` hash parsing (`DocViewer.tsx`);
  - the post card's link and tags (`PostCard.tsx`);
  - the post/fact card choice (`UnifiedHitCard.tsx`);
  - the grouped tag filter (`GroupedTagFilter.tsx`);
  - the robots file (`robots.ts`).
- **State machines**:
  - the chat context (`ChatContext.tsx`);
  - the fact overlay's visibility (`FactCardOverlay.tsx`);
  - the tag filter's expanded groups;
  - the fact card's one-shot view event;
  - the fact-id routing's one-shot scroll and fallback flags.

Each source file is one module. Shared modules:

- `Wrappers`: Option;
- `Strings`: trim, split, join, search;
- `Numerals`: radix numerals and JavaScript `Number()` on integers;
- `QueryParams`: key/value parameter lists;
- `Hits`: the search hit record.

Where the source loops and updates variables, the model is a method with loop invariants. Each such method is proved equal to a specification function, and lemmas state the promised properties of that function. Where the source keeps state, the model is a class whose methods state the new state.

## Model

| member | source | states |
|---|---|---|
| SearchRouting.NormalizeArrayParam | apps/web/src/components/SearchPage/searchRouting.ts:13-19 | A missing, empty or non-string value gives []. A non-empty string s gives [s]. An array gives exactly its string elements, in order. |
| SearchRouting.WithValues | apps/web/src/components/SearchPage/searchRouting.ts:21-24 | Undefined exactly for a missing or empty list; otherwise the same list. |
| SearchRouting.PageText | apps/web/src/components/SearchPage/searchRouting.ts:26-28 | The text read is a non-empty string itself, or an array's first element when that is a string; an empty array, a non-string element or an object gives none. |
| SearchRouting.ParsePageParam | apps/web/src/components/SearchPage/searchRouting.ts:26-33 | Nothing without page text. Otherwise Number(text) when it is finite and > 1, and nothing when it is NaN or ≤ 1; a page returned is always that number. |
| SearchRouting.ParsePageOfNumeral | apps/web/src/components/SearchPage/searchRouting.ts:26-33 | The decimal numeral of n, alone or as the first array element, parses to n exactly when n > 1, and to no page otherwise. |
| SearchRouting.ToRouteState | apps/web/src/components/SearchPage/searchRouting.ts:35-46 | Every list in the route state is missing or non-empty. A UI state without the index gives the empty route state. |
| SearchRouting.ToUiState | apps/web/src/components/SearchPage/searchRouting.ts:48-67 | The UI state holds exactly the one index, whose refinement list has only the four route keys, each with a non-empty list. |
| SearchRouting.ToUiStateRefinements | apps/web/src/components/SearchPage/searchRouting.ts:48-67 | toUiState copies query and page. A refinement key is present exactly when its route list is non-empty, and then it holds that list. |
| SearchRouting.UiRouteUiRoundTrip | apps/web/src/components/SearchPage/searchRouting.ts:35-67 | UI → route → UI keeps query and page, and keeps exactly the four refinement lists that are non-empty. |
| SearchRouting.UiRouteUiRoundTripFull | apps/web/src/components/SearchPage/searchRouting.ts:35-67 | When every refinement key is one of the four and every list is non-empty, UI → route → UI is the identity. |
| SearchRouting.RouteUiRouteRoundTrip | apps/web/src/components/SearchPage/searchRouting.ts:35-67 | Route → UI → route turns empty lists into missing ones, and is the identity on route states without empty lists. |
| SearchRouting.RouteParamsValuesAt | apps/web/src/components/SearchPage/searchRouting.ts:128-133 | Each key of the built parameters holds exactly the route field's values: the query if non-empty, the page numeral if > 1, and each list element in order. |
| SearchRouting.RouteParamsOrdered | apps/web/src/components/SearchPage/searchRouting.ts:128-133 | Parameters come in the fixed key order query, page, category, project, tag0, tag1. |
| SearchRouting.CreateURL | apps/web/src/components/SearchPage/searchRouting.ts:76-93 | The URL starts with the pathname, and is the pathname alone exactly when no parameter is written. |
| SearchRouting.GetSearchPageURL | apps/web/src/components/SearchPage/searchRouting.ts:120-137 | The URL starts with basePath, and is basePath alone exactly when the index state's route state writes no parameter. |
| SearchRouting.SearchPageURLIsBasePath | apps/web/src/components/SearchPage/searchRouting.ts:120-137 | getSearchPageURL returns basePath exactly when the query is empty, the page is absent or ≤ 1, and every refinement list is empty. |
| SearchRouting.SearchPageParams | apps/web/src/components/SearchPage/searchRouting.ts:125-133 | The parameters of getSearchPageURL carry the index state's query, page and lists under their keys, in the fixed order. |
| SearchRouting.ParseQuery | apps/web/src/components/SearchPage/searchRouting.ts:95 | A parsed key is absent exactly when the query string has no value for it. |
| SearchRouting.ParseURL | apps/web/src/components/SearchPage/searchRouting.ts:94-107 | The parsed route state always has a query and all four lists, and any page in it is > 1. |
| SearchRouting.NormalizedValues | apps/web/src/components/SearchPage/searchRouting.ts:95-106 | Parsing a key and normalising it gives back its values, except that a lone empty value gives []. |
| SearchRouting.ParseURLQuery | apps/web/src/components/SearchPage/searchRouting.ts:96-101 | The parsed query is the first query value, or '' when there is none. |
| SearchRouting.RouteURLRoundTrip | apps/web/src/components/SearchPage/searchRouting.ts:76-108 | parseURL(createURL(r)) gives back r's query (or ''), its page when > 1, and its lists (missing as []), provided no list is exactly [""]. |
| SearchRouting.QueryRoundTrip | apps/web/src/components/SearchPage/searchRouting.ts:79-101 | The query survives the URL round trip, with a missing or empty query read back as ''. |
| SearchRouting.PageRoundTrip | apps/web/src/components/SearchPage/searchRouting.ts:80-102 | A page > 1 survives the URL round trip; any other page is read back as absent. |
| SearchRouting.EmptyStringListIsLost | apps/web/src/components/SearchPage/searchRouting.ts:14-81 | A category list [""] comes back from the URL as []: the one exception to the round trip. |
| SearchRouting.WindowTitle | apps/web/src/components/SearchPage/searchRouting.ts:71-74 | 'Fact Index' for a missing or blank query; otherwise 'Fact Index: ' followed by the trimmed query. |
| SystemDocsIndex.GetLineNumbers | scripts/generate_system_docs_index.py:8-55 | The scanner loop computes exactly the scan specification LineNumbers. |
| SystemDocsIndex.CountBraces | scripts/generate_system_docs_index.py:32-53 | The in-place update of balance and start for one line agrees with the scan specification's brace step. That step records a start at balance 0, closes a range when the balance returns to 0, and clamps the balance at 0. |
| SystemDocsIndex.LineNumbersWellFormed | scripts/generate_system_docs_index.py:22-53 | Ranges exist only after the first line containing '['. Each range is 1-based with start ≤ end, they are strictly increasing and non-overlapping, and the balance is never negative. |
| SystemDocsIndex.FirstBracketLine | scripts/generate_system_docs_index.py:23-26 | Finds the first line whose stripped text contains '[', or reports that none does. |
| SystemDocsIndex.LinesAfterStopAreIgnored | scripts/generate_system_docs_index.py:28-30 | Once the closing ']' stops the scan, lines appended afterwards change nothing. |
| SystemDocsIndex.StoppedLinesAreFinal | scripts/generate_system_docs_index.py:28-30 | After the scan stops, the state no longer changes. |
| SystemDocsIndex.RelPath | scripts/generate_system_docs_index.py:79 | The relative path, appended to the data directory, gives back the file path. |
| SystemDocsIndex.ProcessFile | scripts/generate_system_docs_index.py:57-95 | No records for a file that is not a list, or whose range count differs from its object count; otherwise exactly FileRecords. |
| SystemDocsIndex.FileRecordFields | scripts/generate_system_docs_index.py:81-93 | Record i carries 'sysdoc_' + objectID (default 'unknown'), title (default 'Untitled'), the relative path, object i's range with 1 ≤ start ≤ end, the '/system/doc/<rel>#L' URL and the tags. |
| SystemDocsIndex.BuildIndex | scripts/generate_system_docs_index.py:97-115 | The loop concatenates the records of the included files, in file order. |
| SystemDocsIndex.IndexRecordsFromIncludedFiles | scripts/generate_system_docs_index.py:103-107 | Every indexed record comes from a file that is neither the output file nor a package.json. |
| DocViewer.IndexedRecordHighlightsItsLines | scripts/generate_system_docs_index.py:89 | The URL of an indexed record parses, in the viewer, to exactly the record's line range. |
| KnowledgeGraph.ExtractFactsFromAbout | apps/api/scripts/build_knowledge_graph.py:49-69 | One fact per about record, in order, each built from its record. |
| KnowledgeGraph.FreshFact | apps/api/scripts/build_knowledge_graph.py:54-66 | A fresh fact has empty visual_refs, related_projects and related_posts, and its id is 'fact_' + the record's id. Its category is the section, or 'general' when the section is missing. |
| KnowledgeGraph.FactIdsInjective | apps/api/scripts/build_knowledge_graph.py:55 | Distinct about records give distinct fact ids. |
| KnowledgeGraph.EnrichProjectsWithVisuals | apps/api/scripts/build_knowledge_graph.py:88-125 | One enriched project per input, in order. |
| KnowledgeGraph.EnrichedBanner | apps/api/scripts/build_knowledge_graph.py:93-103 | banner_image and thumbnail_url come from the banner map exactly when the objectID is a key, and are None otherwise. |
| KnowledgeGraph.EnrichedTags | apps/api/scripts/build_knowledge_graph.py:108-112 | Existing tags are kept. Missing tags become tech_stack, followed by project_type if it is non-empty. |
| KnowledgeGraph.EnrichedKeepsOtherFields | apps/api/scripts/build_knowledge_graph.py:94-121 | The output has the input's keys plus the written ones. Every other field is unchanged, and screenshots, related_artwork and related_facts are []. |
| KnowledgeGraph.BuildConnectionGraph | apps/api/scripts/build_knowledge_graph.py:128-158 | The nested loops compute exactly the graph specification: projects outer, facts inner. |
| KnowledgeGraph.LinkProject | apps/api/scripts/build_knowledge_graph.py:138-156 | The inner loop appends exactly the project's row of connections and keeps the counter equal to the number of connections. |
| KnowledgeGraph.LinkedFactsIff | apps/api/scripts/build_knowledge_graph.py:142-143 | A fact is linked to a project exactly when their tag sets intersect. |
| KnowledgeGraph.RowLinksAreLinkedFacts | apps/api/scripts/build_knowledge_graph.py:138-156 | A project's row has one connection per linked fact, in fact order, with consecutive ids. |
| KnowledgeGraph.GraphIdsConsecutive | apps/api/scripts/build_knowledge_graph.py:131-156 | The k-th connection of the graph is named conn_k. |
| KnowledgeGraph.ConnectionStrength | apps/api/scripts/build_knowledge_graph.py:142-152 | shared_tags is exactly the intersection and is non-empty. The strength is \|overlap\| / max(\|project tags\|, \|fact tags\|) and lies in (0, 1]. |
| KnowledgeGraph.CollectVisualRefs | apps/api/scripts/build_knowledge_graph.py:273-280 | The inner loop computes the category's visual references. |
| KnowledgeGraph.EmbedVisualRefsInFacts | apps/api/scripts/build_knowledge_graph.py:261-284 | Each fact in the array gets its category's visual references, in place, and no other field changes. |
| KnowledgeGraph.ExistingArtworkSpec | apps/api/scripts/build_knowledge_graph.py:278-280 | The references are the URLs of the theme keys present in the artwork map, at most one per key, and one per key when all are present. |
| KnowledgeGraph.VisualRefsOfCategory | apps/api/scripts/build_knowledge_graph.py:264-282 | Unmapped categories get []. Mapped ones get the URLs of their existing theme keys, in the theme map's order. |
| Crawler.Title | apps/api/algolia/sources/crawler.js:21-22 | The trimmed h1, else the trimmed title, else the URL. |
| Crawler.Prefix | apps/api/algolia/sources/crawler.js:25 | slice(0, n): the whole string when it has at most n characters, otherwise its first n. |
| Crawler.Description | apps/api/algolia/sources/crawler.js:24-25 | Present exactly when the meta tag is given, and then the first 500 characters of the trimmed text (all of it when shorter). |
| Crawler.FinalUrlPreference | apps/api/algolia/sources/crawler.js:36-43 | The final URL is the first given canonical link, og:url or source-url (trimmed), else the crawled URL. The first given candidate decides: when it trims to nothing the crawled URL is used and the later candidates are not consulted. |
| Crawler.FinalUrl | apps/api/algolia/sources/crawler.js:36-43 | The final URL is the crawled URL or the chosen trimmed canonical candidate. |
| Crawler.ToInt32 | apps/api/algolia/sources/crawler.js:70-71 | A 32-bit signed value congruent to its input modulo 2^32. |
| Crawler.StringHash | apps/api/algolia/sources/crawler.js:66-72 | The string hash is a signed 32-bit value. |
| Crawler.HashStepWraps | apps/api/algolia/sources/crawler.js:70-71 | (h << 5) - h + c, wrapped to 32 bits, equals 31·h + c wrapped. |
| Crawler.HashUrl | apps/api/algolia/sources/crawler.js:66-72 | The hash loop computes the 32-bit string hash of the final URL. |
| Crawler.LastNonEmpty | apps/api/algolia/sources/crawler.js:57-62 | Returns a non-empty part, or nothing exactly when every part is empty. |
| Crawler.LastNonEmptyIsLast | apps/api/algolia/sources/crawler.js:57-62 | The part returned is the last non-empty one: it sits at a position after which every part is empty. |
| Crawler.SlugShape | apps/api/algolia/sources/crawler.js:51-74 | The slug is the last non-empty segment of the cleaned URL when the URL has more than one segment and that segment is not blank, and 'post-' followed by the base-36 numeral of the hash's magnitude otherwise. A path slug holds no '/'; the hash numeral reads back as the magnitude. |
| Crawler.Slug | apps/api/algolia/sources/crawler.js:51-74 | The slug is never empty. |
| Crawler.HostOnlyUrlHashes | apps/api/algolia/sources/crawler.js:53-74 | A URL without a path segment always takes the hash slug. |
| Crawler.KeywordTags | apps/api/algolia/sources/crawler.js:82-92 | A tag occurs exactly when some keyword trims to a non-blank text k, and then it is 'DEV Blog > #' + k; blank keywords give no tag, and there are no more tags than keywords. |
| Crawler.KeywordTagsInOrder | apps/api/algolia/sources/crawler.js:82-92 | When no keyword is blank, there is one tag per keyword, in order. |
| Crawler.KeywordTagsAppend | apps/api/algolia/sources/crawler.js:82-92 | The tags of two keyword lists one after the other are the tags of the first followed by those of the second, so order is kept with blanks dropped. |
| Crawler.SignalRange | apps/api/algolia/sources/crawler.js:98-101 | The signal min(5, max(1, ceil(raw/123))) lies in 1..5 and is the 123-wide bucket of raw. |
| Crawler.Signal | apps/api/algolia/sources/crawler.js:101 | The signal lies in 1..5. |
| Crawler.CollapseWhitespace | apps/api/algolia/sources/crawler.js:104 | The non-whitespace characters come out unchanged and in order; no whitespace other than ' ' remains, no two spaces are adjacent, the result is empty exactly when the input is, and it starts with a space exactly when the input starts with whitespace. |
| Crawler.CollapseAfterWord | apps/api/algolia/sources/crawler.js:104 | Text that ends in a non-space character collapses independently of the text after it. |
| Crawler.CollapseRun | apps/api/algolia/sources/crawler.js:104 | A non-empty whitespace run before a non-space character (or the end) becomes exactly one space. |
| Crawler.Content | apps/api/algolia/sources/crawler.js:103-108 | Present exactly when the article text is non-empty, and then the first 150 characters of the trimmed text with whitespace runs collapsed. |
| Crawler.ExtractRecordShape | apps/api/algolia/sources/crawler.js:46-123 | At most one record. None exactly when the final URL is blank or the engagement score is missing or 0. Otherwise the record has the title, description, content, keyword tags and signal of the page, the final URL, category 'Writing', lvl0 tag 'DEV Blog', no projects, a signal in 1..5 and the page's publication time. |
| Crawler.ExtractRecord | apps/api/algolia/sources/crawler.js:18-123 | At most one record, and a record's url is the final URL, which is not blank. |
| Algolia.AppIdShape | apps/web/src/lib/algolia.ts:11-19 | isValidAppId holds exactly for strings of length 10 over [A-Za-z0-9]. |
| Algolia.IsValidAppId | apps/web/src/lib/algolia.ts:11-19 | A valid application ID has exactly ten characters. |
| Algolia.MatchesClassRunIff | apps/web/src/lib/algolia.ts:11 | The anchored, case-insensitive class run matches exactly the n-character ASCII alphanumeric strings. |
| Algolia.AppIdIgnoresCase | apps/web/src/lib/algolia.ts:11 | Upper-casing or lower-casing an app id does not change the verdict. |
| Algolia.EmptyCredentialsRejected | apps/web/src/lib/algolia.ts:17-36 | Empty strings fail both checks, so credentials with an empty part are rejected. |
| Algolia.HasValidAlgoliaCredentials | apps/web/src/lib/algolia.ts:31-36 | Valid credentials have a ten-character app ID and a key of at least 20 characters. |
| DocViewer.SplitLinesShape | apps/web/src/components/DocViewer/DocViewer.tsx:12 | After CRLF normalisation there are (number of '\n') + 1 lines, none contains '\n', and joining them with '\n' gives back the content. Empty content gives one empty line. |
| DocViewer.SplitLines | apps/web/src/components/DocViewer/DocViewer.tsx:12 | One line more than there are line feeds after CRLF normalisation, and no line contains a line feed. |
| DocViewer.FirstMatchFrom | apps/web/src/components/DocViewer/DocViewer.tsx:20 | The unanchored search finds no range exactly when no position matches. |
| DocViewer.ParseHash | apps/web/src/components/DocViewer/DocViewer.tsx:18-24 | No range exactly when no position of the hash starts a '#L<digits>' match (so the empty hash gives none). |
| DocViewer.ParseFragment | apps/web/src/components/DocViewer/DocViewer.tsx:20-24 | A hash '…#L<a>-L<b>' with no earlier '#' gives the range [a, b]. |
| DocViewer.ParseSingleLine | apps/web/src/components/DocViewer/DocViewer.tsx:20-24 | A hash '…#L<n>' with no earlier '#' gives the range [n, n]. |
| DocViewer.NoLineMarkerNoRange | apps/web/src/components/DocViewer/DocViewer.tsx:18-36 | A hash with no '#L<digit>' (the empty hash included) gives no range. |
| DocViewer.ViewOfLine | apps/web/src/components/DocViewer/DocViewer.tsx:44-62 | Line k (1-based) gets id 'L<k>' and shows k. A non-empty line shows its text and an empty line shows a single space. It is highlighted exactly when a range is set and start ≤ k ≤ end. |
| DocViewer.Viewer.HandleHashChange | apps/web/src/components/DocViewer/DocViewer.tsx:16-36 | The highlighted range becomes the hash's parsed range, and the lines are unchanged. |
| DocViewer.Viewer.Render | apps/web/src/components/DocViewer/DocViewer.tsx:49-64 | One view per line, in order. |
| GroupedTagFilter.Requests | apps/web/src/components/SearchPage/GroupedTagFilter.tsx:13-18 | lvl0 is requested with the limit (default 50), and lvl1 with twice that. |
| GroupedTagFilter.ChildrenOf | apps/web/src/components/SearchPage/GroupedTagFilter.tsx:35-46 | The children of a parent are exactly the items whose value splits into ≥ 2 parts with that first part. |
| GroupedTagFilter.GroupChildren | apps/web/src/components/SearchPage/GroupedTagFilter.tsx:31-46 | The grouping loop computes exactly the grouping specification. |
| GroupedTagFilter.GroupedIsChildren | apps/web/src/components/SearchPage/GroupedTagFilter.tsx:35-46 | A parent has an entry exactly when it has children, and the entry lists them in input order. |
| GroupedTagFilter.Grouped | apps/web/src/components/SearchPage/GroupedTagFilter.tsx:31-46 | Every parent that has an entry has at least one child in it. |
| GroupedTagFilter.ToggleFlipsOnlyLabel | apps/web/src/components/SearchPage/GroupedTagFilter.tsx:21-63 | Toggling flips the given label, leaves every other label alone, and toggling twice restores it. A label never toggled is collapsed. |
| GroupedTagFilter.Filter.ToggleGroup | apps/web/src/components/SearchPage/GroupedTagFilter.tsx:23-28 | The expanded map becomes the toggled map. |
| GroupedTagFilter.RootViewShape | apps/web/src/components/SearchPage/GroupedTagFilter.tsx:60-128 | A root is a group exactly when children are filed under its label. A group toggles its label and shows its children only when expanded. Otherwise the root is a checkbox that refines the lvl0 value. |
| GroupedTagFilter.ChildViewShape | apps/web/src/components/SearchPage/GroupedTagFilter.tsx:95-106 | A child refines its lvl1 value and shows the second ' > ' part of its label, which exists exactly when the label contains ' > '. |
| GroupedTagFilter.RenderNothingIffNoRoots | apps/web/src/components/SearchPage/GroupedTagFilter.tsx:54-60 | The filter renders nothing exactly when there are no lvl0 items; otherwise it renders one view per root, in order. |
| GroupedTagFilter.Render | apps/web/src/components/SearchPage/GroupedTagFilter.tsx:54-60 | Nothing is rendered exactly when there are no lvl0 items; otherwise one view per lvl0 item. |
| FactCard.OpenFlips | apps/web/src/components/FactCard/FactCard.tsx:44-77 | After openCard, factId is the hit's id alone and the card is flipped. Absent facet keys get the hit's values, and present keys are untouched. |
| FactCard.CloseUnflips | apps/web/src/components/FactCard/FactCard.tsx:80-85 | closeCard removes only factId. It navigates to the bare pathname exactly when nothing else remains. |
| FactCard.MergeAbsent | apps/web/src/components/FactCard/FactCard.tsx:46-62 | Merging a key that is absent appends the hit's values for it. |
| FactCard.CardUrlOpensCard | apps/web/src/components/FactCard/FactCard.tsx:129-145 | The card URL's parameters are what openCard builds from empty parameters, so following it flips the card. |
| FactCard.CardUrl | apps/web/src/components/FactCard/FactCard.tsx:129-145 | The card's link is the search page with factId as its first parameter. |
| FactCard.DisplayTags | apps/web/src/components/FactCard/FactCard.tsx:42-128 | At most one tag: the first lvl1 tag, when there is one. |
| FactCard.CategoryLabel | apps/web/src/components/FactCard/FactCard.tsx:36 | The category when it is set, otherwise 'System'. |
| FactCard.Description | apps/web/src/components/FactCard/FactCard.tsx:207-212 | The highlighted blurb exactly when there is a blurb. Otherwise the first min(100, n) characters of the body (content, else fact, else ''), followed by '...'. |
| FactCard.Card.OpenCard | apps/web/src/components/FactCard/FactCard.tsx:67-78 | Pushes '?' followed by the open parameters, and sends the view event only on the first open with events enabled. |
| FactCard.Card.HandleKeyDown | apps/web/src/components/FactCard/FactCard.tsx:113-125 | Enter and Space act exactly as a click (closing a flipped card, opening an unflipped one with the view event); every other key pushes nothing and leaves the event state unchanged. |
| FactCard.Card.Activate | apps/web/src/components/FactCard/FactCard.tsx:101-111 | A click closes a flipped card (no event, flag unchanged) and opens an unflipped one, sending the view event exactly when none was sent before and events are enabled. |
| FactCard.CloseCard | apps/web/src/components/FactCard/FactCard.tsx:80-85 | Pushes the close target. |
| FactCard.OnWindowKey | apps/web/src/components/FactCard/FactCard.tsx:87-99 | Escape closes the card exactly when it is flipped; other keys do nothing. |
| QueryParams.FocusParamsValues | apps/web/src/components/FactCard/FactCard.tsx:74-76 | After set('factId', id) and the merge, factId is [id]. Absent facet keys get the facet values, and all other keys are unchanged. |
| QueryParams.MergeFacetsValues | apps/web/src/components/FactCard/FactCard.tsx:46-62 | The merge only appends. A facet key that is absent gains the facet values; any present key keeps its values. |
| QueryParams.WithSetValues | apps/web/src/components/FactCard/FactCard.tsx:75 | set(key, v) leaves exactly [v] under key, and every other key unchanged. |
| QueryParams.WithoutKeyKeepsOthers | apps/web/src/components/FactCard/FactCard.tsx:82 | delete(key) removes key and keeps every other key's values. |
| QueryParams.Serialize | apps/web/src/components/FactCard/FactCard.tsx:83 | The query string is empty exactly when there are no parameters. |
| QueryParams.ApplyFacets | apps/web/src/components/FactCard/FactCard.tsx:46-65 | applyHitParams changes the parameter builder in place into the merged parameters. |
| QueryParams.AppendEach | apps/web/src/components/FactCard/FactCard.tsx:53 | The forEach loop appends one pair per value, in order. |
| FactIdRouting.FactIdOf | apps/web/src/hooks/useFactIdRouting.ts:21 | No id when the search params are null. Otherwise an id exactly when factId is present, and then its first value. |
| FactIdRouting.HasFilterParamsIff | apps/web/src/hooks/useFactIdRouting.ts:80-89 | Filter params exist exactly when one of category, project, tag0, tag1 or query has a non-empty first value. |
| FactIdRouting.FallbackKeepsExisting | apps/web/src/hooks/useFactIdRouting.ts:99-118 | The fallback URL sets factId to the id alone, keeps every present key's values, and fills absent facet keys from the metadata. |
| FactIdRouting.MetadataRequest | apps/web/src/hooks/useFactIdRouting.ts:154-163 | The lookup asks for one hit with an empty query and the filter 'objectID:' + id. |
| FactIdRouting.FetchFactMetadataIff | apps/web/src/hooks/useFactIdRouting.ts:141-176 | Metadata is returned exactly when both credentials are set and the first result has a hit, and then it is that hit. Otherwise null, including when the search throws. |
| FactIdRouting.Routing.ScrollToCard | apps/web/src/hooks/useFactIdRouting.ts:32-37 | Scrolls at most once: only when not yet attempted and the card is rendered. |
| FactIdRouting.Routing.RunEffect | apps/web/src/hooks/useFactIdRouting.ts:25-93 | Without a factId both flags and counts reset and nothing happens. With one, the effect scrolls at most once, observes only when the container exists, and runs the lookup exactly when the fallback has not run and no filter param is set; the fallback flag and the lookup count record that lookup, so it happens at most once while the id stays. |
| FactIdRouting.Routing.OnMutation | apps/web/src/hooks/useFactIdRouting.ts:64-69 | The observer retries the scroll (requesting it exactly when none was requested and the card is rendered) and disconnects once it has succeeded; the fallback flag and the lookup count are unchanged. |
| FactIdRouting.LookupOnceAcrossObserver | apps/web/src/hooks/useFactIdRouting.ts:25-93 | Effect, observer callback, effect again with the same parameters: the first run looks up exactly when an id is set, the fallback has not run and no filter is set, and the second run never looks up. |
| FactIdRouting.CompleteFallback | apps/web/src/hooks/useFactIdRouting.ts:96-119 | No new URL without metadata; otherwise the fallback URL. |
| InfiniteHits.NextPage | apps/web/src/components/SearchPage/InfiniteHits.tsx:31-33 | The next page is always ≥ 2. |
| InfiniteHits.NextPageCases | apps/web/src/components/SearchPage/InfiniteHits.tsx:31-33 | A page n > 0 gives n + 1. A page of 0, no page, or a non-numeric page gives 2. |
| InfiniteHits.NextPageHrefShape | apps/web/src/components/SearchPage/InfiniteHits.tsx:30-36 | The href is '?' followed by the parameters. page holds exactly the next page, and every other key is unchanged. |
| InfiniteHits.NextPageHref | apps/web/src/components/SearchPage/InfiniteHits.tsx:30-36 | The href is a non-empty query string starting with '?'. |
| InfiniteHits.OnIntersect | apps/web/src/components/SearchPage/InfiniteHits.tsx:41-47 | showMore is called once per intersecting entry, and never on the last page. |
| InfiniteHits.Render | apps/web/src/components/SearchPage/InfiniteHits.tsx:57-70 | One item per hit, keyed by objectID, in order. The 'Show more results' link is rendered exactly when this is not the last page, and targets the next-page href. |
| PostCard.LinkTarget | apps/web/src/components/PostCard/PostCard.tsx:26 | The blurb exactly when it is set and starts with 'http', otherwise the objectID. |
| PostCard.Tags | apps/web/src/components/PostCard/PostCard.tsx:27 | Tags come from tags.lvl1 if it is set (even empty), else tags.lvl0, else []; read from the record's flat keys (see Findings). |
| PostCard.TagsAsWritten | apps/web/src/components/PostCard/PostCard.tsx:27 | As written: no tags without a nested tags object, and the nested lvl1 list whenever it is set. |
| PostCard.ShownTags | apps/web/src/components/PostCard/PostCard.tsx:52 | The first min(3, n) tags, in order. |
| PostCard.ViewShape | apps/web/src/components/PostCard/PostCard.tsx:35-52 | The label is 'Read post: ' + title. The tag block is shown exactly when there is a tag, with at most three tags in order. |
| PostCard.View | apps/web/src/components/PostCard/PostCard.tsx:25-52 | The card links to the link target, is labelled 'Read post: ' + title, shows tags exactly when there are any, and shows the first min(3, n) of them. |
| PostCard.EmptyLevelOneHidesLevelZero | apps/web/src/components/PostCard/PostCard.tsx:27 | An empty lvl1 list still wins over lvl0, so no tags are shown. |
| PostCard.CrawledPostTagsLostAsWritten | apps/web/src/components/PostCard/PostCard.tsx:27 | A crawled post with tags shows none as written, and shows its first lvl1 tag once the flat keys are read. |
| PostCard.KeywordsGiveTags | apps/api/algolia/sources/crawler.js:79-117 | A crawled post with non-blank keywords has one lvl1 tag per keyword, so the loss above does occur. |
| UnifiedHitCard.CardChoice | apps/web/src/components/SearchPage/UnifiedHitCard.tsx:21-29 | A fact card exactly when the url is missing or empty and the blurb is missing or does not start with 'http'; otherwise a post card. |
| UnifiedHitCard.CrawledPostsArePosts | apps/web/src/components/SearchPage/UnifiedHitCard.tsx:22-26 | Every crawled post renders as a post card. |
| FactCardOverlay.RunFacts | apps/web/src/components/FactCard/FactCardOverlay.tsx:25-89 | Starting visible, the overlay is hidden exactly when some close gesture occurred, and onClose has been called only while hidden. |
| FactCardOverlay.HiddenStaysHidden | apps/web/src/components/FactCard/FactCardOverlay.tsx:37-55 | Once hidden, the overlay stays hidden and the onClose count never decreases. |
| FactCardOverlay.Step | apps/web/src/components/FactCard/FactCardOverlay.tsx:37-55 | A hidden overlay stays hidden, the onClose count never decreases, and it rises by one only while hidden. |
| FactCardOverlay.Overlay.Handle | apps/web/src/components/FactCard/FactCardOverlay.tsx:37-89 | Each event moves the overlay's fields to the Step of the old state. |
| FactCardOverlay.Overlay.HandleClose | apps/web/src/components/FactCard/FactCardOverlay.tsx:37-39 | handleClose hides the overlay and does not call onClose. |
| FactCardOverlay.Overlay.HandleExitComplete | apps/web/src/components/FactCard/FactCardOverlay.tsx:53-55 | onClose is called exactly when the overlay is hidden. |
| FactCardOverlay.BodyText | apps/web/src/components/FactCard/FactCardOverlay.tsx:121 | The content, else the fact, else the blurb. |
| FactCardOverlay.SourceLabel | apps/web/src/components/FactCard/FactCardOverlay.tsx:100-111 | A source label exists exactly when the url is set. |
| FactCardOverlay.ProjectTags | apps/web/src/components/FactCard/FactCardOverlay.tsx:126-136 | The project tag block is shown exactly when `projects` is a non-empty list, and then lists those projects in order. |
| FactCardOverlay.SourceLabelChoice | apps/web/src/components/FactCard/FactCardOverlay.tsx:28-107 | The label is exactly 'Read ' + title + ' on DEV Community' when the url contains 'dev.to', and exactly 'View source for ' + title otherwise. |
| ChatContext.InitialState | apps/web/src/context/ChatContext.tsx:22-27 | Starts closed and not loading, with exactly two bot messages. |
| ChatContext.ToggleTwice | apps/web/src/context/ChatContext.tsx:29 | toggleChat flips isOpen and nothing else, and two toggles restore the state. |
| ChatContext.AddAppends | apps/web/src/context/ChatContext.tsx:30 | addMessage appends at the end: one more message, and earlier ones unchanged. |
| ChatContext.LoadingOnly | apps/web/src/context/ChatContext.tsx:27-34 | setIsLoading changes only isLoading. |
| ChatContext.GreetingsStayFirst | apps/web/src/context/ChatContext.tsx:23-30 | After any sequence of additions, the two greetings come first, followed by the additions in order. |
| ChatContext.ChatProvider.ToggleChat | apps/web/src/context/ChatContext.tsx:29 | The provider's state becomes the toggled state. |
| ChatContext.ChatProvider.AddMessage | apps/web/src/context/ChatContext.tsx:30 | The provider's state gains the message at the end. |
| ChatContext.UseChat | apps/web/src/context/ChatContext.tsx:41-47 | Fails with 'useChat must be used within a ChatProvider' exactly when there is no provider; otherwise returns it. |
| Robots.BaseUrlNormalised | apps/web/src/app/robots.ts:5-6 | An unset or empty variable gives 'http://localhost:3000'. Otherwise exactly one trailing '/' is removed. |
| Robots.LoneSlashBase | apps/web/src/app/robots.ts:5-13 | A base of '/' becomes empty, and the sitemap becomes '/sitemap.xml'. |
| Robots.BaseUrlIdempotent | apps/web/src/app/robots.ts:6-13 | For a setting that is unset, or neither ends in '//' nor is '/', normalising twice changes nothing ('http://x//' becomes 'http://x/' and then 'http://x'). The sitemap is the base + '/sitemap.xml', and the rules allow '/' for '*'. |
| Robots.BaseUrl | apps/web/src/app/robots.ts:5-6 | The base is the default, or the setting less at most its last character. |
| Robots.RobotsFor | apps/web/src/app/robots.ts:8-14 | The rules allow '/' for every user agent, and the sitemap ends in '/sitemap.xml'. |

## Left out

- I/O:
  - Network and filesystem access, globbing, JSON loading and saving, and console output are left out.
  - The scripts' file contents, decoded JSON values and banner/artwork maps are inputs.
  - `datetime.now()` is a `now` parameter. One `now` stands for every call in a run, whereas the script calls `datetime.now()` afresh for each fact and each connection, so their time stamps may differ by the time the script takes.
- Browser and framework side effects are left out: the DOM, `scrollIntoView`, MutationObserver and IntersectionObserver wiring, `history.replaceState`, router pushes, focus management, React rendering and Framer Motion animation. They appear as recorded counters, pushed URLs or view values.
- Percent-encoding of `URLSearchParams`/`qs` is not modelled. Parameters are key/value sequences, and the serialised form joins `key=value` pairs with `&`.
- Whitespace is the ASCII set (space, tab, LF, VT, FF, CR). There is no Unicode case folding.
- A Dafny `char` is a Unicode scalar value, while JavaScript strings are UTF-16 code units. Characters outside the Basic Multilingual Plane, which JavaScript sees as two surrogate code units, are therefore not modelled: `charCodeAt` in the crawler's hash, and the lengths behind `slice(0, 500)`, `slice(0, 150)` and `slice(0, 100)`, are taken per character.
- Numerals.ToNumber: models `Number()` on blank strings and optionally signed decimal integers only. Decimals, exponents, hex and Infinity are not modelled; other strings give NaN.
- Crawler:
  - The engagement score is an optional integer. The NaN case of `Number()` is not modelled.
  - Date parsing of `article:published_time` is an optional epoch input.
  - `og:image` is read by the source but never used, so it is left out.
  - The slug is modelled and proved about, but, as in the source, it is not placed in the record.
- DocViewer.ParseHash: line numbers are unbounded naturals. `parseInt`'s loss of precision beyond 2^53 is not modelled.
- KnowledgeGraph:
  - The connection strength is an exact ratio (num, den), not a float.
  - `shared_tags` is a set: `list(overlap)` has an unspecified order.
  - A fact's `content` (`json.dumps` of the record's data) is an input string.
  - Dictionary key order is not modelled.
- KnowledgeGraph.AboutRecord: `objectID` is a mandatory string. The script indexes `record['objectID']` and raises KeyError when it is missing; that failure is not modelled. An about record's `tags` is a list of strings when present.
- KnowledgeGraph.EnrichProject: requires `tech_stack`, when present, to be a list. Where `tags` is missing the script computes `tech + [...]`, which raises TypeError for any other type; that failure is not modelled.
- KnowledgeGraph.Graph: requires each project's `tags`, when present, to be a list of strings. Enrichment keeps an existing `tags` value of any type, and the script turns it into a set with `set(...)`: a string would give the set of its characters, and a non-iterable would raise TypeError. Neither is modelled.
- SystemDocsIndex:
  - `os.path.relpath` is modelled for paths under the data directory only, which is all that `glob` there yields.
  - `json.dumps(obj)` is an input string.
- GroupedTagFilter: the lookup of inherited object-prototype keys of `childrenByParent` (a label such as `constructor`) is not modelled.
- FactIdRouting: the effect is modelled as one run per `factId` value. The re-run when `factId` changes directly from one id to another, without passing through an absent value, is not modelled separately.
- FactCard: `sendEvent` is a recorded list of viewed object IDs.
- SearchRouting.GetSearchPageURL: `basePath` is a required parameter. The default `'/'` applies only when a caller omits it, and such a call is the model's call with `"/"`.
- Algolia.HasValidAlgoliaCredentials: both credentials are parameters. The defaults read from the environment (`ALGOLIA_APP_ID`, `ALGOLIA_SEARCH_KEY`) are left out with the rest of the environment.
- InfiniteHits.NextPage: pages are unbounded integers. `Number(page) + 1` losing precision beyond 2^53 is not modelled.
- Left out entirely, since none is part of the core:
  - the particle and sparkle animations (floating point, `Math.random`, Pixi.js);
  - `userToken.ts` (clock, randomness and session storage);
  - `apps/api/main.py` (stub routes);
  - the Algolia/HTTP indexing scripts;
  - the presentational components.

## Findings

| source | as written | input that shows it | evidently intended | confidence | as-written member | corrected member |
|---|---|---|---|---|---|---|
| apps/web/src/components/PostCard/PostCard.tsx:27 | Tags are read from a nested `hit.tags?.lvl1 \|\| hit.tags?.lvl0`. The crawler (crawler.js:116-117) and the fact card (FactCard.tsx:39-40) use the flat keys `tags.lvl0`/`tags.lvl1`, which is also how the post card's tests build hits. | A crawled post whose page has the keywords meta `react`: its record has `tags.lvl1 = ['DEV Blog > #react']` and no `tags` object, so the card shows no tags. | Read the flat `tags.lvl1`, then `tags.lvl0`, so that crawled posts show their tags. | not executed | PostCard.CrawledPostTagsLostAsWritten | PostCard.Tags |
