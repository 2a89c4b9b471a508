/**
 * The blog crawler's record extractor (apps/api/algolia/sources/crawler.js):
 * how one crawled post page becomes at most one search record. The values
 * the extractor reads from the page's markup are inputs.
 */
module Crawler {
  import opened Wrappers
  import opened Strings
  import opened Numerals

  /** What the extractor reads from one page. */
  datatype Page = Page(
    url: string,
    /** text of the first `main > h1`, `""` when there is none */
    h1Text: string,
    /** text of the first `title`, `""` when there is none */
    titleText: string,
    description: Option<string>,
    canonicalLink: Option<string>,
    ogUrl: Option<string>,
    sourceUrl: Option<string>,
    keywords: Option<string>,
    /** the number the engagement-score meta tag holds, when it is present and not empty */
    engagementScore: Option<int>,
    /** text of the first `main article`, `""` when there is none */
    articleText: string,
    /** the publication time in whole seconds, when the meta tag holds a date */
    createdAt: Option<int>)

  /** One record of the posts index. */
  datatype PostRecord = PostRecord(
    title: string,
    url: string,
    blurb: Option<string>,
    fact: Option<string>,
    tagsLvl0: seq<string>,
    tagsLvl1: seq<string>,
    projects: seq<string>,
    category: string,
    signal: int,
    createdAt: Option<int>)

  /** A meta value that JavaScript treats as true: present and not empty. */
  predicate Given(v: Option<string>) {
    v.Some? && v.value != ""
  }

  /** `h1.trim() || title.trim() || url`. */
  function Title(page: Page): (title: string)
    ensures Trim(page.h1Text) != "" ==> title == Trim(page.h1Text)
    ensures Trim(page.h1Text) == "" && Trim(page.titleText) != "" ==> title == Trim(page.titleText)
    ensures Trim(page.h1Text) == "" && Trim(page.titleText) == "" ==> title == page.url
  {
    if Trim(page.h1Text) != "" then Trim(page.h1Text)
    else if Trim(page.titleText) != "" then Trim(page.titleText)
    else page.url
  }

  /** The first `n` characters of `s` (`slice(0, n)`). */
  function Prefix(s: string, n: nat): (r: string)
    ensures |r| <= n && StartsWith(s, r)
    ensures |s| <= n ==> r == s
    ensures |s| > n ==> r == s[..n]
  {
    if |s| <= n then s else s[..n]
  }

  /** The description, trimmed and cut to 500 characters; null when the meta is missing or empty. */
  function Description(page: Page): (d: Option<string>)
    ensures d.Some? <==> Given(page.description)
    ensures d.Some? ==> |d.value| <= 500 && StartsWith(Trim(page.description.value), d.value)
    ensures d.Some? ==> d.value == Prefix(Trim(page.description.value), 500)
  {
    if Given(page.description) then Some(Prefix(Trim(page.description.value), 500)) else None
  }

  /** The first given of the canonical link, `og:url` and `source-url`, trimmed. */
  function Canonical(page: Page): Option<string> {
    if Given(page.canonicalLink) then Some(Trim(page.canonicalLink.value))
    else if Given(page.ogUrl) then Some(Trim(page.ogUrl.value))
    else if Given(page.sourceUrl) then Some(Trim(page.sourceUrl.value))
    else None
  }

  /** `canonical || urlStr`. */
  function FinalUrl(page: Page): (f: string)
    ensures f == page.url || Canonical(page) == Some(f)
  {
    var c := Canonical(page);
    if c.Some? && c.value != "" then c.value else page.url
  }

  /**
   * The final URL is the canonical link, else `og:url`, else `source-url`
   * (the first one present and not empty, trimmed), else the crawled URL;
   * the first given candidate decides even when it trims to nothing, and
   * then the crawled URL is used without looking at the later candidates.
   */
  lemma FinalUrlPreference(page: Page)
    ensures Given(page.canonicalLink) && Trim(page.canonicalLink.value) != "" ==>
      FinalUrl(page) == Trim(page.canonicalLink.value)
    ensures !Given(page.canonicalLink) && Given(page.ogUrl) && Trim(page.ogUrl.value) != "" ==>
      FinalUrl(page) == Trim(page.ogUrl.value)
    ensures (!Given(page.canonicalLink) && !Given(page.ogUrl) && Given(page.sourceUrl) &&
             Trim(page.sourceUrl.value) != "") ==> FinalUrl(page) == Trim(page.sourceUrl.value)
    ensures !Given(page.canonicalLink) && !Given(page.ogUrl) && !Given(page.sourceUrl) ==>
      FinalUrl(page) == page.url
    ensures FinalUrl(page) == page.url || !IsBlank(FinalUrl(page))
    ensures Given(page.canonicalLink) && Trim(page.canonicalLink.value) == "" ==> FinalUrl(page) == page.url
    ensures !Given(page.canonicalLink) && Given(page.ogUrl) && Trim(page.ogUrl.value) == "" ==>
      FinalUrl(page) == page.url
    ensures (!Given(page.canonicalLink) && !Given(page.ogUrl) && Given(page.sourceUrl) &&
             Trim(page.sourceUrl.value) == "") ==> FinalUrl(page) == page.url
  {
    var c := Canonical(page);
    if c.Some? && c.value != "" {
      if Given(page.canonicalLink) {
        TrimmedIsNotBlank(page.canonicalLink.value);
      } else if Given(page.ogUrl) {
        TrimmedIsNotBlank(page.ogUrl.value);
      } else {
        TrimmedIsNotBlank(page.sourceUrl.value);
      }
    }
  }

  lemma TrimmedIsNotBlank(s: string)
    ensures Trim(s) != "" ==> !IsBlank(Trim(s))
  {
    TrimStartSpec(s);
    TrimEndSpec(TrimStart(s));
  }

  /** JavaScript's `ToInt32`: the integer reduced modulo 2^32 into the signed range. */
  function ToInt32(x: int): (r: int)
    ensures -0x8000_0000 <= r < 0x8000_0000
    ensures (r - x) % 0x1_0000_0000 == 0
  {
    var m := x % 0x1_0000_0000;
    if m >= 0x8000_0000 then m - 0x1_0000_0000 else m
  }

  /**
   * The 32-bit string hash: `hash = (hash << 5) - hash + code; hash &= hash`
   * over the characters, which is `ToInt32(31 * hash + code)`.
   */
  function StringHash(s: string): (h: int)
    ensures -0x8000_0000 <= h < 0x8000_0000
  {
    if s == [] then 0 else ToInt32(31 * StringHash(s[..|s| - 1]) + (s[|s| - 1] as int))
  }

  /** `(h << 5) - h + code`, with the shift taken on 32 bits as JavaScript does. */
  function HashStep(h: int, code: int): int {
    ToInt32(32 * h) - h + code
  }

  lemma HashStepWraps(h: int, code: int)
    ensures ToInt32(HashStep(h, code)) == ToInt32(31 * h + code)
  {
    var a := HashStep(h, code);
    var b := 31 * h + code;
    assert (a - b) % 0x1_0000_0000 == 0 by {
      assert a - b == ToInt32(32 * h) - 32 * h;
    }
    ModEqual(a, b);
  }

  lemma ModEqual(a: int, b: int)
    requires (a - b) % 0x1_0000_0000 == 0
    ensures ToInt32(a) == ToInt32(b)
  {
    var k := (a - b) / 0x1_0000_0000;
    assert a == b + k * 0x1_0000_0000;
    assert a % 0x1_0000_0000 == b % 0x1_0000_0000;
  }

  /** The hash loop as written. */
  method HashUrl(finalUrl: string) returns (hash: int)
    ensures hash == StringHash(finalUrl)
  {
    hash := 0;
    var i := 0;
    while i < |finalUrl|
      invariant 0 <= i <= |finalUrl|
      invariant hash == StringHash(finalUrl[..i])
    {
      var code := finalUrl[i] as int;
      assert finalUrl[..i + 1][..i] == finalUrl[..i];
      HashStepWraps(hash, code);
      hash := (ToInt32(32 * hash)) - hash + code;
      hash := ToInt32(hash);
      i := i + 1;
    }
    assert finalUrl[..|finalUrl|] == finalUrl;
  }

  function Abs(x: int): nat {
    if x < 0 then -x else x
  }

  /** `url.replace(/\/$/, '')`: one trailing slash removed. */
  function StripTrailingSlash(s: string): string {
    if |s| > 0 && s[|s| - 1] == '/' then s[..|s| - 1] else s
  }

  /** `url.replace(/^https?:\/\//, '')`. */
  function StripScheme(s: string): string {
    if StartsWith(s, "https://") then s[8..]
    else if StartsWith(s, "http://") then s[7..]
    else s
  }

  /** The last non-empty part, if any. */
  function LastNonEmpty(parts: seq<string>): (r: Option<string>)
    ensures r.Some? ==> r.value != "" && r.value in parts
    ensures r.None? ==> forall p :: p in parts ==> p == ""
  {
    if parts == [] then None
    else if parts[|parts| - 1] != "" then Some(parts[|parts| - 1])
    else
      var r := LastNonEmpty(parts[..|parts| - 1]);
      assert forall p :: p in parts ==> p in parts[..|parts| - 1] || p == parts[|parts| - 1];
      r
  }

  /** The part found is the last non-empty one: every part after it is empty. */
  lemma {:induction false} LastNonEmptyIsLast(parts: seq<string>)
    ensures LastNonEmpty(parts).Some? ==>
      exists i :: 0 <= i < |parts| && parts[i] == LastNonEmpty(parts).value &&
                  (forall j :: i < j < |parts| ==> parts[j] == "")
  {
    if parts != [] && parts[|parts| - 1] == "" {
      var init := parts[..|parts| - 1];
      LastNonEmptyIsLast(init);
      if LastNonEmpty(init).Some? {
        var i :| 0 <= i < |init| && init[i] == LastNonEmpty(init).value &&
                 (forall j :: i < j < |init| ==> init[j] == "");
        assert parts[i] == init[i];
        assert forall j :: i < j < |parts| ==> parts[j] == "" by {
          forall j | i < j < |parts| ensures parts[j] == "" {
            if j < |init| {
              assert parts[j] == init[j];
            }
          }
        }
      }
    }
  }

  /** The slug taken from the URL's path, `""` when there is none. */
  function PathSlug(finalUrl: string): string {
    var parts := Split(StripScheme(StripTrailingSlash(finalUrl)), "/");
    if |parts| > 1 then LastNonEmpty(parts).GetOr("") else ""
  }

  /** The slug: the URL's last non-empty path segment, or `post-` and the base-36 hash. */
  function Slug(finalUrl: string): (slug: string)
    ensures slug != ""
  {
    var slug := PathSlug(finalUrl);
    if slug == "" || IsBlank(slug) then "post-" + ToRadix(Abs(StringHash(finalUrl)), 36) else slug
  }

  /**
   * The slug is never empty: either a non-blank segment of the cleaned URL,
   * which holds no `/`, or `post-` followed by base-36 digits of the hash's
   * magnitude.
   */
  lemma SlugShape(finalUrl: string)
    ensures var parts := Split(StripScheme(StripTrailingSlash(finalUrl)), "/");
      var last := LastNonEmpty(parts);
      Slug(finalUrl) == (if |parts| > 1 && last.Some? && !IsBlank(last.value) then last.value
                         else "post-" + ToRadix(Abs(StringHash(finalUrl)), 36))
    ensures var slug := Slug(finalUrl);
      var parts := Split(StripScheme(StripTrailingSlash(finalUrl)), "/");
      slug != "" &&
      ((slug in parts && |parts| > 1 && !IsBlank(slug) && '/' !in slug) ||
       (slug == "post-" + ToRadix(Abs(StringHash(finalUrl)), 36) &&
        RadixValue(slug[5..], 36) == Abs(StringHash(finalUrl))))
  {
    var parts := Split(StripScheme(StripTrailingSlash(finalUrl)), "/");
    SplitCharPartsLackSep(StripScheme(StripTrailingSlash(finalUrl)), '/');
    var h := Abs(StringHash(finalUrl));
    RadixRoundTrip(h, 36);
    assert ("post-" + ToRadix(h, 36))[5..] == ToRadix(h, 36);
  }

  /** A URL with no path (a single segment) always takes the hash slug. */
  lemma HostOnlyUrlHashes(finalUrl: string)
    requires '/' !in StripScheme(StripTrailingSlash(finalUrl))
    ensures Slug(finalUrl) == "post-" + ToRadix(Abs(StringHash(finalUrl)), 36)
  {
    var clean := StripScheme(StripTrailingSlash(finalUrl));
    CountCharAbsent(clean, '/');
    SplitCharCount(clean, '/');
  }

  /** The keyword tags: split on commas, trimmed, empties dropped, each prefixed. */
  function KeywordTags(parts: seq<string>): (tags: seq<string>)
    ensures |tags| <= |parts|
    ensures forall t :: t in tags ==> StartsWith(t, TagPrefix) && Trim(t[|TagPrefix|..]) != ""
    ensures forall t :: t in tags <==> exists p :: p in parts && Trim(p) != "" && t == TagPrefix + Trim(p)
  {
    if parts == [] then []
    else
      var t := Trim(parts[|parts| - 1]);
      var init := KeywordTags(parts[..|parts| - 1]);
      if t == "" then init
      else
        assert (TagPrefix + t)[|TagPrefix|..] == t;
        TrimTwice(parts[|parts| - 1]);
        init + [TagPrefix + t]
  }

  const TagPrefix := "DEV Blog > #"

  lemma TrimTwice(s: string)
    ensures Trim(Trim(s)) == Trim(s)
  {
    var t := Trim(s);
    TrimStartSpec(s);
    TrimEndSpec(TrimStart(s));
    TrimOfTrimmed(t);
  }

  /** The level-1 tags of a page: none without keywords. */
  function Tags(page: Page): seq<string> {
    if Given(page.keywords) then KeywordTags(Split(page.keywords.value, ",")) else []
  }

  /**
   * The tags keep the keyword order: a keyword list with no empty entries
   * gives one prefixed tag per keyword, in order.
   */
  lemma {:induction false} KeywordTagsInOrder(parts: seq<string>)
    requires forall p :: p in parts ==> Trim(p) != ""
    ensures KeywordTags(parts) == seq(|parts|, i requires 0 <= i < |parts| => TagPrefix + Trim(parts[i]))
  {
    if parts != [] {
      var init := parts[..|parts| - 1];
      var last := parts[|parts| - 1];
      assert forall p :: p in init ==> p in parts;
      assert Trim(last) != "" by {
        assert last in parts;
      }
      KeywordTagsInOrder(init);
      assert KeywordTags(parts) == KeywordTags(init) + [TagPrefix + Trim(last)];
    }
  }

  /**
   * Tags of consecutive keyword lists concatenate: with `KeywordTagsInOrder`
   * and the membership clause of `KeywordTags` (a blank keyword yields no
   * tag), this fixes the tags of any keyword list, blanks included.
   */
  lemma {:induction false} KeywordTagsAppend(a: seq<string>, b: seq<string>)
    ensures KeywordTags(a + b) == KeywordTags(a) + KeywordTags(b)
  {
    if b == [] {
      assert a + b == a;
    } else {
      var init := b[..|b| - 1];
      assert (a + b)[..|a + b| - 1] == a + init;
      assert (a + b)[|a + b| - 1] == b[|b| - 1];
      KeywordTagsAppend(a, init);
    }
  }

  /** `ceil(raw / 123)` for an integer `raw`. */
  function CeilDiv123(raw: int): int {
    -((-raw) / 123)
  }

  /** The signal: `min(5, max(1, ceil(raw / 123)))`. */
  function Signal(raw: int): (signal: int)
    ensures 1 <= signal <= 5
  {
    var c := CeilDiv123(raw);
    var atLeastOne := if c > 1 then c else 1;
    if atLeastOne < 5 then atLeastOne else 5
  }

  /**
   * The signal always lies in 1..5: scores up to 123 give 1, scores above
   * 492 give 5, and in between it is the score divided by 123, rounded up.
   */
  lemma SignalRange(raw: int)
    ensures 1 <= Signal(raw) <= 5
    ensures raw <= 123 ==> Signal(raw) == 1
    ensures raw > 492 ==> Signal(raw) == 5
    ensures 123 * (Signal(raw) - 1) < raw <= 123 * Signal(raw) || raw <= 0 || raw > 492
  {
  }

  /** `\s+` replaced by a single space. */
  function CollapseWhitespace(s: string): (r: string)
    ensures |r| <= |s|
    ensures forall i :: 0 <= i < |r| ==> (IsSpace(r[i]) ==> r[i] == ' ')
    ensures forall i :: 0 < i < |r| ==> !(r[i - 1] == ' ' && r[i] == ' ')
    ensures r == [] <==> s == []
    ensures s != [] && IsSpace(s[0]) <==> r != [] && r[0] == ' '
    ensures NonSpace(r) == NonSpace(s)
  {
    if s == [] then []
    else
      var rest := CollapseWhitespace(s[1..]);
      if IsSpace(s[0]) then
        if rest != [] && rest[0] == ' ' then
          assert NonSpace(rest) == NonSpace(rest[1..]);
          assert ([' '] + rest[1..])[1..] == rest[1..];
          [' '] + rest[1..]
        else
          assert ([' '] + rest)[1..] == rest;
          [' '] + rest
      else
        assert ([s[0]] + rest)[1..] == rest;
        [s[0]] + rest
  }

  /** The characters of `s` that are not whitespace, in order. */
  function NonSpace(s: string): string {
    if s == [] then [] else (if IsSpace(s[0]) then [] else [s[0]]) + NonSpace(s[1..])
  }

  /** Text that ends in a non-space character collapses independently of what follows it. */
  lemma {:induction false} CollapseAfterWord(a: string, b: string)
    requires a != [] && !IsSpace(a[|a| - 1])
    ensures CollapseWhitespace(a + b) == CollapseWhitespace(a) + CollapseWhitespace(b)
  {
    var ab := a + b;
    assert ab[0] == a[0] && ab[1..] == a[1..] + b;
    CollapseUnfold(ab);
    CollapseUnfold(a);
    if |a| == 1 {
      assert a[1..] == [] && ab[1..] == b;
    } else {
      CollapseAfterWord(a[1..], b);
      CollapseStepAppend(a[0], CollapseWhitespace(a[1..]), CollapseWhitespace(b));
    }
  }

  /** One character in front of the collapsed rest, as `CollapseWhitespace` adds it. */
  function CollapseStep(c: char, rest: string): string {
    if !IsSpace(c) then [c] + rest
    else if rest != [] && rest[0] == ' ' then [' '] + rest[1..]
    else [' '] + rest
  }

  lemma CollapseUnfold(s: string)
    requires s != []
    ensures CollapseWhitespace(s) == CollapseStep(s[0], CollapseWhitespace(s[1..]))
  {
  }

  lemma CollapseStepAppend(c: char, x: string, y: string)
    requires x != []
    ensures CollapseStep(c, x + y) == CollapseStep(c, x) + y
  {
    assert (x + y)[0] == x[0];
    assert (x + y)[1..] == x[1..] + y;
  }

  /** A non-empty whitespace run, followed by a non-space character or nothing, becomes one space. */
  lemma {:induction false} CollapseRun(w: string, b: string)
    requires w != [] && IsBlank(w)
    requires b == [] || !IsSpace(b[0])
    ensures CollapseWhitespace(w + b) == [' '] + CollapseWhitespace(b)
  {
    assert (w + b)[1..] == w[1..] + b;
    if |w| > 1 {
      CollapseRun(w[1..], b);
      assert ([' '] + CollapseWhitespace(b))[1..] == CollapseWhitespace(b);
    }
  }

  /** The fact text: trimmed, whitespace runs collapsed, at most 150 characters; null without article text. */
  function Content(page: Page): (c: Option<string>)
    ensures c.Some? <==> page.articleText != ""
    ensures c.Some? ==> |c.value| <= 150
    ensures c.Some? ==> c.value == Prefix(CollapseWhitespace(Trim(page.articleText)), 150)
  {
    if page.articleText != "" then Some(Prefix(CollapseWhitespace(Trim(page.articleText)), 150)) else None
  }

  /** `recordExtractor`: the page's record, or none. */
  function ExtractRecord(page: Page): (records: seq<PostRecord>)
    ensures |records| <= 1
    ensures records != [] ==> records[0].url == FinalUrl(page) && !IsBlank(records[0].url)
  {
    var finalUrl := FinalUrl(page);
    if finalUrl == "" || IsBlank(finalUrl) then []
    else if page.engagementScore.None? || page.engagementScore.value == 0 then []
    else
      [PostRecord(
        Title(page),
        finalUrl,
        Description(page),
        Content(page),
        ["DEV Blog"],
        Tags(page),
        [],
        "Writing",
        Signal(page.engagementScore.value),
        page.createdAt)]
  }

  /**
   * At most one record comes out; none exactly when the final URL is blank or
   * the engagement score is missing or 0. A record carries the final URL, the
   * fixed category `Writing`, top-level tag `DEV Blog`, no projects, and a
   * signal in 1..5.
   */
  lemma ExtractRecordShape(page: Page)
    ensures |ExtractRecord(page)| <= 1
    ensures ExtractRecord(page) == [] <==>
      IsBlank(FinalUrl(page)) || page.engagementScore.None? || page.engagementScore == Some(0)
    ensures ExtractRecord(page) != [] ==>
      var r := ExtractRecord(page)[0];
      r.url == FinalUrl(page) && r.category == "Writing" && r.tagsLvl0 == ["DEV Blog"] &&
      r.projects == [] && 1 <= r.signal <= 5 && r.createdAt == page.createdAt
    ensures ExtractRecord(page) != [] ==>
      var r := ExtractRecord(page)[0];
      r.title == Title(page) && r.blurb == Description(page) && r.fact == Content(page) &&
      r.tagsLvl1 == Tags(page) && r.signal == Signal(page.engagementScore.value)
  {
    if page.engagementScore.Some? {
      SignalRange(page.engagementScore.value);
    }
  }
}
