/**
 * The knowledge-graph build (apps/api/scripts/build_knowledge_graph.py):
 * facts extracted from the about records, projects enriched with their
 * banner images, the tag-overlap connection graph between projects and
 * facts, and the artwork references embedded in each fact.
 */
module KnowledgeGraph {
  import opened Wrappers
  import opened Strings
  import opened Numerals

  /** A decoded JSON value. */
  datatype Value =
    | Null
    | Bool(b: bool)
    | Num(n: int)
    | Str(s: string)
    | List(items: seq<Value>)
    | Obj(fields: map<string, Value>)

  /** Python truthiness of a decoded JSON value. */
  predicate Truthy(v: Value) {
    match v
    case Null => false
    case Bool(b) => b
    case Num(n) => n != 0
    case Str(s) => s != ""
    case List(items) => items != []
    case Obj(fields) => fields != map[]
  }

  /** A JSON object, as a Python dict. */
  type Dict = map<string, Value>

  /** `d.get(key, default)`. */
  function Get(d: Dict, key: string, default: Value): Value {
    if key in d then d[key] else default
  }

  /**
   * One record of the about data. `data` is the text `json.dumps` gives for
   * the record's `data` field, when it has one.
   */
  datatype AboutRecord = AboutRecord(
    objectID: string,
    title: Option<string>,
    section: Option<string>,
    data: Option<string>,
    tags: Option<seq<string>>,
    updatedAt: Option<string>)

  /** One fact of the graph. */
  datatype Fact = Fact(
    objectID: string,
    nodeType: string,
    title: string,
    category: string,
    content: string,
    visualRefs: seq<string>,
    relatedProjects: seq<string>,
    relatedPosts: seq<string>,
    sourceDoc: string,
    tags: seq<string>,
    updatedAt: string)

  const FactPrefix := "fact_"

  /** The fact made from one about record; `now` stands for the build time stamp. */
  function FactOf(record: AboutRecord, now: string): Fact {
    Fact(
      FactPrefix + record.objectID,
      "fact",
      record.title.GetOr(""),
      record.section.GetOr("general"),
      record.data.GetOr("{}"),
      [], [], [],
      record.objectID,
      record.tags.GetOr([]),
      record.updatedAt.GetOr(now))
  }

  /** `extract_facts_from_about`: one fact per record, in order. */
  method ExtractFactsFromAbout(aboutData: seq<AboutRecord>, now: string) returns (facts: seq<Fact>)
    ensures |facts| == |aboutData|
    ensures forall i :: 0 <= i < |aboutData| ==> facts[i] == FactOf(aboutData[i], now)
  {
    facts := [];
    var i := 0;
    while i < |aboutData|
      invariant 0 <= i <= |aboutData|
      invariant |facts| == i
      invariant forall k :: 0 <= k < i ==> facts[k] == FactOf(aboutData[k], now)
    {
      facts := facts + [FactOf(aboutData[i], now)];
      i := i + 1;
    }
  }

  /**
   * A fresh fact has no visual references and no related projects or posts,
   * points back at its record through `source_doc`, and its id is `fact_`
   * followed by that record's id; the category defaults to `general`.
   */
  lemma FreshFact(record: AboutRecord, now: string)
    ensures var f := FactOf(record, now);
      f.visualRefs == [] && f.relatedProjects == [] && f.relatedPosts == [] &&
      f.objectID == FactPrefix + f.sourceDoc && f.sourceDoc == record.objectID &&
      (record.section.None? ==> f.category == "general") &&
      (record.section.Some? ==> f.category == record.section.value)
  {
  }

  /** Distinct about records give facts with distinct ids. */
  lemma FactIdsInjective(a: AboutRecord, b: AboutRecord, now: string)
    requires a.objectID != b.objectID
    ensures FactOf(a, now).objectID != FactOf(b, now).objectID
  {
    assert (FactPrefix + a.objectID)[|FactPrefix|..] == a.objectID;
    assert (FactPrefix + b.objectID)[|FactPrefix|..] == b.objectID;
  }

  /** The banner paths of one project image. */
  datatype Banner = Banner(bannerImage: string, thumbnailUrl: string)

  /** The project keys the enrichment writes. */
  const BannerImageKey := "banner_image"
  const ThumbnailKey := "thumbnail_url"
  const TagsKey := "tags"
  const ScreenshotsKey := "screenshots"
  const RelatedArtworkKey := "related_artwork"
  const RelatedFactsKey := "related_facts"

  predicate IsEnrichmentKey(key: string) {
    key == BannerImageKey || key == ThumbnailKey || key == TagsKey ||
    key == ScreenshotsKey || key == RelatedArtworkKey || key == RelatedFactsKey
  }

  /**
   * What the enrichment demands of a project: an `objectID` that can be looked
   * up in a dict, and, when there is no `tags` field, a `tech_stack` that is a
   * list (anything else makes the concatenation fail).
   */
  predicate Enrichable(project: Dict) {
    (ObjectIdKey in project ==> !project[ObjectIdKey].List? && !project[ObjectIdKey].Obj?) &&
    (TagsKey !in project ==> Get(project, "tech_stack", List([])).List?)
  }

  const ObjectIdKey := "objectID"

  /** The slug a project is looked up under in the banner map, if it is a string. */
  function BannerFor(project: Dict, banners: map<string, Banner>): Option<Banner> {
    var slug := Get(project, ObjectIdKey, Str(""));
    if slug.Str? && slug.s in banners then Some(banners[slug.s]) else None
  }

  /** `tech_stack` followed by `project_type` when that is truthy. */
  function DerivedTags(project: Dict): Value
    requires Get(project, "tech_stack", List([])).List?
  {
    var tech := Get(project, "tech_stack", List([])).items;
    var pType := Get(project, "project_type", Str(""));
    List(tech + (if Truthy(pType) then [pType] else []))
  }

  /** The enriched copy of one project. */
  function EnrichProject(project: Dict, banners: map<string, Banner>): Dict
    requires Enrichable(project)
  {
    var banner := BannerFor(project, banners);
    var withBanner := project[BannerImageKey := if banner.Some? then Str(banner.value.bannerImage) else Null]
                             [ThumbnailKey := if banner.Some? then Str(banner.value.thumbnailUrl) else Null];
    var withTags := if TagsKey in withBanner then withBanner else withBanner[TagsKey := DerivedTags(project)];
    withTags[ScreenshotsKey := List([])][RelatedArtworkKey := List([])][RelatedFactsKey := List([])]
  }

  /** `enrich_projects_with_visuals`: an enriched copy of every project, in order. */
  method EnrichProjectsWithVisuals(projectsData: seq<Dict>, banners: map<string, Banner>)
    returns (enriched: seq<Dict>)
    requires forall p :: p in projectsData ==> Enrichable(p)
    ensures |enriched| == |projectsData|
    ensures forall i :: 0 <= i < |projectsData| ==> enriched[i] == EnrichProject(projectsData[i], banners)
  {
    enriched := [];
    var i := 0;
    while i < |projectsData|
      invariant 0 <= i <= |projectsData|
      invariant |enriched| == i
      invariant forall k :: 0 <= k < i ==> enriched[k] == EnrichProject(projectsData[k], banners)
    {
      var project := projectsData[i];
      assert project in projectsData;
      enriched := enriched + [EnrichProject(project, banners)];
      i := i + 1;
    }
  }

  /**
   * Banner and thumbnail come from the banner map exactly when the project's
   * id is one of its keys; otherwise both are null.
   */
  lemma EnrichedBanner(project: Dict, banners: map<string, Banner>)
    requires Enrichable(project)
    ensures var e := EnrichProject(project, banners);
      var slug := Get(project, ObjectIdKey, Str(""));
      BannerImageKey in e && ThumbnailKey in e &&
      (slug.Str? && slug.s in banners <==> e[BannerImageKey] != Null) &&
      (slug.Str? && slug.s in banners ==>
        e[BannerImageKey] == Str(banners[slug.s].bannerImage) &&
        e[ThumbnailKey] == Str(banners[slug.s].thumbnailUrl)) &&
      (!(slug.Str? && slug.s in banners) ==> e[BannerImageKey] == Null && e[ThumbnailKey] == Null)
  {
  }

  /**
   * An existing `tags` field is kept; a missing one becomes `tech_stack`
   * followed by `project_type` when that is truthy.
   */
  lemma EnrichedTags(project: Dict, banners: map<string, Banner>)
    requires Enrichable(project)
    ensures var e := EnrichProject(project, banners);
      TagsKey in e &&
      (TagsKey in project ==> e[TagsKey] == project[TagsKey]) &&
      (TagsKey !in project ==> e[TagsKey] == DerivedTags(project))
  {
  }

  /**
   * The enriched project has exactly the input's fields plus the six it
   * writes; every other field keeps its value, and screenshots, related
   * artwork and related facts are reset to empty lists.
   */
  lemma EnrichedKeepsOtherFields(project: Dict, banners: map<string, Banner>)
    requires Enrichable(project)
    ensures var e := EnrichProject(project, banners);
      (forall k :: k in e <==> k in project || IsEnrichmentKey(k)) &&
      (forall k :: k in project && !IsEnrichmentKey(k) ==> e[k] == project[k]) &&
      e[ScreenshotsKey] == List([]) && e[RelatedArtworkKey] == List([]) && e[RelatedFactsKey] == List([])
  {
  }

  /** A rational number `num / den`, the connection strength. */
  datatype Ratio = Ratio(num: nat, den: nat)

  /** One edge of the graph, from a project to a fact. */
  datatype Connection = Connection(
    objectID: string,
    fromId: Value,
    fromType: string,
    toId: string,
    toType: string,
    relationship: string,
    strength: Ratio,
    sharedTags: set<string>,
    createdAt: string)

  /** The graph step demands that a project's `tags`, when present, is a list of strings. */
  predicate HasStringTags(project: Dict) {
    TagsKey in project ==>
      project[TagsKey].List? && forall v :: v in project[TagsKey].items ==> v.Str?
  }

  /** `set(project.get("tags", []))`. */
  function ProjectTags(project: Dict): set<string>
    requires HasStringTags(project)
  {
    if TagsKey in project then set v | v in project[TagsKey].items :: v.s else {}
  }

  /** `set(fact.get("tags", []))`. */
  function FactTags(fact: Fact): set<string> {
    set t | t in fact.tags
  }

  function ConnectionId(n: nat): string {
    "conn_" + NatToString(n)
  }

  /** The connection with number `id` between a project and a fact. */
  function MakeConnection(id: nat, project: Dict, fact: Fact, now: string): Connection
    requires HasStringTags(project)
  {
    var projectTags := ProjectTags(project);
    var factTags := FactTags(fact);
    var overlap := projectTags * factTags;
    Connection(
      ConnectionId(id),
      Get(project, ObjectIdKey, Str("")),
      "project",
      fact.objectID,
      "fact",
      "implements",
      Ratio(|overlap|, if |projectTags| >= |factTags| then |projectTags| else |factTags|),
      overlap,
      now)
  }

  predicate Overlaps(project: Dict, fact: Fact)
    requires HasStringTags(project)
  {
    ProjectTags(project) * FactTags(fact) != {}
  }

  /** The connections of one project with the given facts, numbered from `base`. */
  function RowLinks(project: Dict, facts: seq<Fact>, base: nat, now: string): seq<Connection>
    requires HasStringTags(project)
  {
    if facts == [] then []
    else
      var init := RowLinks(project, facts[..|facts| - 1], base, now);
      var fact := facts[|facts| - 1];
      init + (if Overlaps(project, fact) then [MakeConnection(base + |init|, project, fact, now)] else [])
  }

  /** The whole graph: projects outer, facts inner, numbered consecutively from 0. */
  function Graph(projects: seq<Dict>, facts: seq<Fact>, now: string): seq<Connection>
    requires forall p :: p in projects ==> HasStringTags(p)
  {
    if projects == [] then []
    else
      var init := Graph(projects[..|projects| - 1], facts, now);
      init + RowLinks(projects[|projects| - 1], facts, |init|, now)
  }

  /** `build_connection_graph`, with a running connection counter. */
  method BuildConnectionGraph(facts: seq<Fact>, projects: seq<Dict>, now: string)
    returns (connections: seq<Connection>)
    requires forall p :: p in projects ==> HasStringTags(p)
    ensures connections == Graph(projects, facts, now)
  {
    connections := [];
    var connectionId := 0;
    var i := 0;
    while i < |projects|
      invariant 0 <= i <= |projects|
      invariant connections == Graph(projects[..i], facts, now)
      invariant connectionId == |connections|
    {
      assert projects[i] in projects;
      assert projects[..i + 1][..i] == projects[..i];
      connections, connectionId := LinkProject(projects[i], facts, now, connections, connectionId);
      i := i + 1;
    }
    assert projects[..|projects|] == projects;
  }

  /** The inner loop of `build_connection_graph`: one project against every fact. */
  method LinkProject(project: Dict, facts: seq<Fact>, now: string, before: seq<Connection>, firstId: nat)
    returns (connections: seq<Connection>, connectionId: nat)
    requires HasStringTags(project)
    requires firstId == |before|
    ensures connections == before + RowLinks(project, facts, |before|, now)
    ensures connectionId == |connections|
  {
    connections := before;
    connectionId := firstId;
    var j := 0;
    while j < |facts|
      invariant 0 <= j <= |facts|
      invariant connections == before + RowLinks(project, facts[..j], |before|, now)
      invariant connectionId == |connections|
    {
      var fact := facts[j];
      assert facts[..j + 1][..j] == facts[..j];
      var overlap := ProjectTags(project) * FactTags(fact);
      if overlap != {} {
        connections := connections + [MakeConnection(connectionId, project, fact, now)];
        connectionId := connectionId + 1;
      }
      j := j + 1;
    }
    assert facts[..|facts|] == facts;
  }

  /** The facts a project connects to, in fact order. */
  function LinkedFacts(project: Dict, facts: seq<Fact>): seq<Fact>
    requires HasStringTags(project)
  {
    if facts == [] then []
    else
      var last := facts[|facts| - 1];
      LinkedFacts(project, facts[..|facts| - 1]) + (if Overlaps(project, last) then [last] else [])
  }

  /** A fact is linked exactly when its tags meet the project's. */
  lemma {:induction false} LinkedFactsIff(project: Dict, facts: seq<Fact>, fact: Fact)
    requires HasStringTags(project)
    ensures fact in LinkedFacts(project, facts) <==> fact in facts && Overlaps(project, fact)
  {
    if facts != [] {
      LinkedFactsIff(project, facts[..|facts| - 1], fact);
      assert facts == facts[..|facts| - 1] + [facts[|facts| - 1]];
    }
  }

  /**
   * One project's row holds one connection per linked fact, in fact order,
   * numbered consecutively from `base`, each from the project to that fact.
   */
  lemma {:induction false} RowLinksAreLinkedFacts(project: Dict, facts: seq<Fact>, base: nat, now: string)
    requires HasStringTags(project)
    ensures var row := RowLinks(project, facts, base, now);
      var linked := LinkedFacts(project, facts);
      |row| == |linked| &&
      forall k :: 0 <= k < |row| ==> row[k] == MakeConnection(base + k, project, linked[k], now)
  {
    if facts != [] {
      RowLinksAreLinkedFacts(project, facts[..|facts| - 1], base, now);
    }
  }

  /** The `k`-th connection of the whole graph is named `conn_k`. */
  lemma {:induction false} GraphIdsConsecutive(projects: seq<Dict>, facts: seq<Fact>, now: string)
    requires forall p :: p in projects ==> HasStringTags(p)
    ensures forall k :: 0 <= k < |Graph(projects, facts, now)| ==>
      Graph(projects, facts, now)[k].objectID == ConnectionId(k)
  {
    if projects != [] {
      var init := projects[..|projects| - 1];
      assert forall p :: p in init ==> p in projects;
      GraphIdsConsecutive(init, facts, now);
      var g := Graph(init, facts, now);
      var last := projects[|projects| - 1];
      assert last in projects;
      RowLinksAreLinkedFacts(last, facts, |g|, now);
      var whole := Graph(projects, facts, now);
      forall k | 0 <= k < |whole| ensures whole[k].objectID == ConnectionId(k) {
        if k >= |g| {
          assert whole[k] == RowLinks(last, facts, |g|, now)[k - |g|];
        } else {
          assert whole[k] == g[k];
        }
      }
    }
  }

  lemma {:induction false} SubsetCardinality(a: set<string>, b: set<string>)
    requires a <= b
    ensures |a| <= |b|
  {
    if a != {} {
      var x :| x in a;
      SubsetCardinality(a - {x}, b - {x});
    }
  }

  /**
   * A connection's shared tags are exactly the two tag sets' intersection,
   * never empty, and its strength `|overlap| / max(|project tags|, |fact
   * tags|)` lies in (0, 1].
   */
  lemma ConnectionStrength(id: nat, project: Dict, fact: Fact, now: string)
    requires HasStringTags(project) && Overlaps(project, fact)
    ensures var c := MakeConnection(id, project, fact, now);
      c.sharedTags == ProjectTags(project) * FactTags(fact) && c.sharedTags != {} &&
      0 < c.strength.num <= c.strength.den &&
      c.strength.num == |c.sharedTags| &&
      c.strength.den == (if |ProjectTags(project)| >= |FactTags(fact)| then |ProjectTags(project)| else |FactTags(fact)|)
  {
    var overlap := ProjectTags(project) * FactTags(fact);
    SubsetCardinality(overlap, ProjectTags(project));
    SubsetCardinality(overlap, FactTags(fact));
  }

  /** The artwork theme keys of each fact category. */
  function ThemeArtwork(category: string): seq<string> {
    if category == "background" || category == "identity" then ["appalachia_mountains"]
    else if category == "ai_philosophy" then ["code_transparency"]
    else if category == "engineering_principles" then ["code_transparency", "systems_thinking"]
    else if category == "career_workstyle" then ["systems_thinking"]
    else []
  }

  /** The URLs of the given artwork keys that exist, in key order. */
  function ExistingArtwork(keys: seq<string>, artworkUrls: map<string, string>): seq<string> {
    if keys == [] then []
    else
      var k := keys[|keys| - 1];
      ExistingArtwork(keys[..|keys| - 1], artworkUrls) + (if k in artworkUrls then [artworkUrls[k]] else [])
  }

  /** The visual references of a fact of the given category. */
  function VisualRefsFor(category: string, artworkUrls: map<string, string>): seq<string> {
    ExistingArtwork(ThemeArtwork(category), artworkUrls)
  }

  /** The visual references of one fact, collected in a loop over its theme's keys. */
  method CollectVisualRefs(category: string, artworkUrls: map<string, string>) returns (visualRefs: seq<string>)
    ensures visualRefs == VisualRefsFor(category, artworkUrls)
  {
    visualRefs := [];
    var keys := ThemeArtwork(category);
    var i := 0;
    while i < |keys|
      invariant 0 <= i <= |keys|
      invariant visualRefs == ExistingArtwork(keys[..i], artworkUrls)
    {
      assert keys[..i + 1][..i] == keys[..i];
      var artworkKey := keys[i];
      if artworkKey in artworkUrls {
        visualRefs := visualRefs + [artworkUrls[artworkKey]];
      }
      i := i + 1;
    }
    assert keys[..|keys|] == keys;
  }

  /**
   * `embed_visual_refs_in_facts`: every fact's visual references are
   * replaced by those of its category; nothing else changes.
   */
  method EmbedVisualRefsInFacts(facts: array<Fact>, artworkUrls: map<string, string>)
    modifies facts
    ensures forall i :: 0 <= i < facts.Length ==>
      facts[i] == old(facts[i]).(visualRefs := VisualRefsFor(old(facts[i]).category, artworkUrls))
  {
    var i := 0;
    while i < facts.Length
      invariant 0 <= i <= facts.Length
      invariant forall k :: 0 <= k < i ==>
        facts[k] == old(facts[k]).(visualRefs := VisualRefsFor(old(facts[k]).category, artworkUrls))
      invariant forall k :: i <= k < facts.Length ==> facts[k] == old(facts[k])
    {
      var visualRefs := CollectVisualRefs(facts[i].category, artworkUrls);
      facts[i] := facts[i].(visualRefs := visualRefs);
      i := i + 1;
    }
  }

  /** Every reference names an artwork URL of one of the category's theme keys, at most one per key. */
  lemma {:induction false} ExistingArtworkSpec(keys: seq<string>, artworkUrls: map<string, string>)
    ensures |ExistingArtwork(keys, artworkUrls)| <= |keys|
    ensures forall u :: u in ExistingArtwork(keys, artworkUrls) <==>
      exists k :: k in keys && k in artworkUrls && artworkUrls[k] == u
    ensures (forall k :: k in keys ==> k in artworkUrls) ==> |ExistingArtwork(keys, artworkUrls)| == |keys|
  {
    if keys != [] {
      var init := keys[..|keys| - 1];
      ExistingArtworkSpec(init, artworkUrls);
      assert keys == init + [keys[|keys| - 1]];
      assert forall k :: k in init ==> k in keys;
    }
  }

  /**
   * Unmapped categories get no references; mapped ones get the URLs of their
   * theme keys that exist, in the map's key order.
   */
  lemma VisualRefsOfCategory(category: string, artworkUrls: map<string, string>)
    ensures ThemeArtwork(category) == [] ==> VisualRefsFor(category, artworkUrls) == []
    ensures forall u :: u in VisualRefsFor(category, artworkUrls) <==>
      exists k :: k in ThemeArtwork(category) && k in artworkUrls && artworkUrls[k] == u
    ensures category == "engineering_principles" && "code_transparency" in artworkUrls && "systems_thinking" in artworkUrls ==>
      VisualRefsFor(category, artworkUrls) == [artworkUrls["code_transparency"], artworkUrls["systems_thinking"]]
  {
    ExistingArtworkSpec(ThemeArtwork(category), artworkUrls);
    if category == "engineering_principles" {
      var keys := ThemeArtwork(category);
      assert keys[..1] == ["code_transparency"];
      assert keys[..1][..0] == [];
    }
  }
}
