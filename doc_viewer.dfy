/**
 * The line viewer for indexed system documents
 * (apps/web/src/components/DocViewer/DocViewer.tsx): the document is cut into
 * numbered lines, and a `#L<a>-L<b>` fragment in the page's hash highlights
 * the range of lines an index record points at.
 */
module DocViewer {
  import opened Wrappers
  import opened Strings
  import opened Numerals
  import SystemDocsIndex

  /** A highlighted range of 1-based line numbers. */
  datatype Range = Range(start: nat, end: nat)

  /** `content.replace(/\r\n/g, '\n')`. */
  function Normalize(content: string): string {
    ReplaceAll(content, "\r\n", "\n")
  }

  /** `content.replace(/\r\n/g, '\n').split('\n')`. */
  function SplitLines(content: string): (lines: seq<string>)
    ensures |lines| == CountChar(Normalize(content), '\n') + 1
    ensures forall line :: line in lines ==> '\n' !in line
  {
    SplitCharCount(Normalize(content), '\n');
    SplitCharPartsLackSep(Normalize(content), '\n');
    Split(Normalize(content), "\n")
  }

  /**
   * There is one line more than there are line feeds after normalisation
   * (so empty content is one empty line), and joining the lines with line
   * feeds gives the normalised content back.
   */
  lemma SplitLinesShape(content: string)
    ensures |SplitLines(content)| == CountChar(Normalize(content), '\n') + 1
    ensures Join(SplitLines(content), "\n") == Normalize(content)
    ensures forall line :: line in SplitLines(content) ==> '\n' !in line
    ensures content == "" ==> SplitLines(content) == [""]
  {
    SplitCharCount(Normalize(content), '\n');
    JoinSplit(Normalize(content), "\n");
    SplitCharPartsLackSep(Normalize(content), '\n');
    if content == "" {
      assert Split("", "\r\n") == [""];
      assert Normalize(content) == "";
    }
  }

  /** The length of the run of decimal digits starting at `i`. */
  function DigitsFrom(s: string, i: nat): (d: nat)
    requires i <= |s|
    ensures i + d <= |s|
    ensures forall t :: i <= t < i + d ==> IsDecimalDigit(s[t])
    ensures i + d == |s| || !IsDecimalDigit(s[i + d])
    decreases |s| - i
  {
    if i < |s| && IsDecimalDigit(s[i]) then
      1 + DigitsFrom(s, i + 1)
    else 0
  }

  /**
   * The match of `/#L(\d+)(?:-L(\d+))?/` that starts at position `i`, as the
   * range it describes: both digit runs are taken whole, and the second
   * number defaults to the first.
   */
  function MatchAt(s: string, i: nat): Option<Range>
    requires i <= |s|
  {
    if i + 2 <= |s| && s[i] == '#' && s[i + 1] == 'L' then
      var d := DigitsFrom(s, i + 2);
      if d == 0 then None
      else
        assert AllDigits(s[i + 2..i + 2 + d], 10);
        var start := DecimalValue(s[i + 2..i + 2 + d]);
        var k := i + 2 + d;
        if k + 2 <= |s| && s[k] == '-' && s[k + 1] == 'L' && DigitsFrom(s, k + 2) > 0 then
          assert AllDigits(s[k + 2..k + 2 + DigitsFrom(s, k + 2)], 10);
          Some(Range(start, DecimalValue(s[k + 2..k + 2 + DigitsFrom(s, k + 2)])))
        else Some(Range(start, start))
    else None
  }

  /** The leftmost match at or after `i`: the pattern is not anchored. */
  function FirstMatchFrom(s: string, i: nat): (r: Option<Range>)
    requires i <= |s|
    ensures r.None? <==> forall j :: i <= j <= |s| ==> MatchAt(s, j).None?
    decreases |s| - i
  {
    if MatchAt(s, i).Some? then MatchAt(s, i)
    else if i == |s| then None
    else FirstMatchFrom(s, i + 1)
  }

  /** What `handleHashChange` sets the highlighted range to for a given hash. */
  function ParseHash(hash: string): (r: Option<Range>)
    ensures r.None? <==> forall j :: 0 <= j <= |hash| ==> MatchAt(hash, j).None?
  {
    if hash == "" then None else FirstMatchFrom(hash, 0)
  }

  /** Positions holding no `#` cannot start a match and are skipped. */
  lemma {:induction false} SkipNoHash(s: string, i: nat, j: nat)
    requires i <= j <= |s|
    requires forall t :: i <= t < j ==> s[t] != '#'
    ensures FirstMatchFrom(s, i) == FirstMatchFrom(s, j)
    decreases j - i
  {
    if i < j {
      assert MatchAt(s, i).None?;
      SkipNoHash(s, i + 1, j);
    }
  }

  /** A digit run of length `n` that ends at a non-digit or at the end is what `DigitsFrom` finds. */
  lemma {:induction false} DigitsFromRun(s: string, i: nat, n: nat)
    requires i + n <= |s|
    requires forall t :: i <= t < i + n ==> IsDecimalDigit(s[t])
    requires i + n == |s| || !IsDecimalDigit(s[i + n])
    ensures DigitsFrom(s, i) == n
    decreases n
  {
    if n > 0 {
      DigitsFromRun(s, i + 1, n - 1);
    }
  }

  lemma NumeralDigits(n: nat)
    ensures var t := NatToString(n); forall j :: 0 <= j < |t| ==> IsDecimalDigit(t[j])
  {
  }

  /** The fragment an index record carries for a line range. */
  function Fragment(start: nat, end: nat): string {
    "#L" + NatToString(start) + "-L" + NatToString(end)
  }

  /**
   * A link to a document with a line-range fragment highlights exactly that
   * range, whatever comes before the fragment so long as it holds no `#`.
   */
  lemma ParseFragment(prefix: string, start: nat, end: nat)
    requires '#' !in prefix
    ensures ParseHash(prefix + Fragment(start, end)) == Some(Range(start, end))
  {
    var a := NatToString(start);
    var b := NatToString(end);
    var u := prefix + "#L" + a;
    var s := u + "-L" + b;
    assert s == prefix + Fragment(start, end);
    NumeralDigits(start);
    NumeralDigits(end);
    HeadRun(prefix, a, "-L" + b);
    TailRun(u, b);
    TwoRunMatch(s, |prefix|, a, b);
    DecimalRoundTrip(start);
    DecimalRoundTrip(end);
    NoHashInPrefix(prefix, Fragment(start, end));
  }

  /** A match with both numbers, read off the text at `p`. */
  lemma TwoRunMatch(s: string, p: nat, a: string, b: string)
    requires p + 2 + |a| + 2 + |b| == |s|
    requires |a| > 0 && |b| > 0
    requires forall j :: 0 <= j < |a| ==> IsDecimalDigit(a[j])
    requires forall j :: 0 <= j < |b| ==> IsDecimalDigit(b[j])
    requires s[p] == '#' && s[p + 1] == 'L'
    requires forall t :: 0 <= t < |a| ==> s[p + 2 + t] == a[t]
    requires s[p + 2 + |a|] == '-' && s[p + 3 + |a|] == 'L'
    requires forall t :: 0 <= t < |b| ==> s[p + 4 + |a| + t] == b[t]
    ensures AllDigits(a, 10) && AllDigits(b, 10)
    ensures MatchAt(s, p) == Some(Range(DecimalValue(a), DecimalValue(b)))
  {
    var k := p + 2 + |a|;
    assert s[p + 2..k] == a;
    assert s[k + 2..] == b;
    DigitsFromRun(s, p + 2, |a|);
    DigitsFromRun(s, k + 2, |b|);
    assert s[k + 2..k + 2 + |b|] == b;
  }

  lemma HeadRun(prefix: string, a: string, rest: string)
    ensures var s := prefix + "#L" + a + rest;
      s[|prefix|] == '#' && s[|prefix| + 1] == 'L' &&
      (forall t :: 0 <= t < |a| ==> s[|prefix| + 2 + t] == a[t]) &&
      (|rest| > 0 ==> s[|prefix| + 2 + |a|] == rest[0])
  {
  }

  lemma TailRun(u: string, b: string)
    ensures var s := u + "-L" + b;
      s[|u|] == '-' && s[|u| + 1] == 'L' && forall t :: 0 <= t < |b| ==> s[|u| + 2 + t] == b[t]
  {
  }

  lemma NoHashInPrefix(prefix: string, rest: string)
    requires '#' !in prefix
    ensures FirstMatchFrom(prefix + rest, 0) == FirstMatchFrom(prefix + rest, |prefix|)
  {
    var s := prefix + rest;
    assert forall t :: 0 <= t < |prefix| ==> s[t] == prefix[t];
    SkipNoHash(s, 0, |prefix|);
  }

  /** A single-line fragment `#L<n>` highlights just line `n`. */
  lemma ParseSingleLine(prefix: string, line: nat)
    requires '#' !in prefix
    ensures ParseHash(prefix + "#L" + NatToString(line)) == Some(Range(line, line))
  {
    var a := NatToString(line);
    var s := prefix + "#L" + a;
    var p := |prefix|;
    NumeralDigits(line);
    HeadRun(prefix, a, "");
    assert s == prefix + "#L" + a + "";
    DigitsFromRun(s, p + 2, |a|);
    assert s[p + 2..p + 2 + |a|] == a;
    DecimalRoundTrip(line);
    assert s == prefix + ("#L" + a);
    NoHashInPrefix(prefix, "#L" + a);
  }

  /** A hash without `#L` followed by a digit highlights nothing. */
  lemma NoLineMarkerNoRange(hash: string)
    requires forall j :: 0 <= j && j + 3 <= |hash| ==> !(hash[j] == '#' && hash[j + 1] == 'L' && IsDecimalDigit(hash[j + 2]))
    ensures ParseHash(hash) == None
  {
    if hash != "" {
      forall j | 0 <= j <= |hash| ensures MatchAt(hash, j).None? {
        if j + 2 <= |hash| && hash[j] == '#' && hash[j + 1] == 'L' {
          if j + 2 < |hash| {
            assert !IsDecimalDigit(hash[j + 2]);
          }
        }
      }
    }
  }

  /**
   * The URL of a system-document record, served with the document, highlights
   * the lines the record was built from. The lemma applies `ParseHash` to the
   * whole URL rather than to `location.hash`: the pattern is unanchored and
   * the part before the fragment holds no `#`, so both give the same match.
   */
  lemma IndexedRecordHighlightsItsLines(obj: SystemDocsIndex.DocObject, range: SystemDocsIndex.LineRange, rel: string)
    requires '#' !in rel
    ensures var url := SystemDocsIndex.RecordFor(obj, range, rel).url;
      ParseHash(url) == Some(Range(range.start, range.end))
  {
    var prefix := "/system/doc/" + rel;
    assert '#' !in prefix;
    assert SystemDocsIndex.RecordFor(obj, range, rel).url == prefix + Fragment(range.start, range.end);
    ParseFragment(prefix, range.start, range.end);
  }

  /** `isHighlighted` for a given range. */
  predicate InRange(range: Option<Range>, lineNumber: int) {
    range.Some? && range.value.start <= lineNumber <= range.value.end
  }

  /** One rendered line: its element id, its visible number and its text. */
  datatype LineView = LineView(id: string, number: nat, text: string, highlighted: bool)

  function ViewOf(lines: seq<string>, range: Option<Range>, index: nat): (v: LineView)
    requires index < |lines|
  {
    var n := index + 1;
    LineView("L" + NatToString(n), n, if lines[index] == "" then " " else lines[index], InRange(range, n))
  }

  /** Line `k` (1-based) gets id `L<k>`, shows `k`, shows a space for an empty line, and is highlighted exactly inside the range. */
  lemma ViewOfLine(lines: seq<string>, range: Option<Range>, index: nat)
    requires index < |lines|
    ensures var v := ViewOf(lines, range, index);
      v.id[1..] == NatToString(index + 1) && v.id[0] == 'L' && v.number == index + 1 &&
      (lines[index] != "" ==> v.text == lines[index]) && (lines[index] == "" ==> v.text == " ") &&
      v.text != "" &&
      (v.highlighted <==> range.Some? && range.value.start <= index + 1 <= range.value.end)
  {
    var v := ViewOf(lines, range, index);
    assert v.id == "L" + NatToString(index + 1);
  }

  /** The viewer's state: its lines and the highlighted range. */
  class Viewer {
    var lines: seq<string>
    var highlightedRange: Option<Range>

    constructor(content: string)
      ensures lines == SplitLines(content) && highlightedRange == None
    {
      lines := SplitLines(content);
      highlightedRange := None;
    }

    /** `handleHashChange`: the range becomes what the hash describes, or none. */
    method HandleHashChange(hash: string)
      modifies this
      ensures highlightedRange == ParseHash(hash)
      ensures lines == old(lines)
    {
      if hash != "" {
        var m := FirstMatchFrom(hash, 0);
        if m.Some? {
          highlightedRange := Some(m.value);
        } else {
          highlightedRange := None;
        }
      } else {
        highlightedRange := None;
      }
    }

    /** `isHighlighted`. */
    predicate IsHighlighted(lineNumber: int)
      reads this
    {
      InRange(highlightedRange, lineNumber)
    }

    /** The rendered lines. */
    function Render(): (views: seq<LineView>)
      reads this
      ensures |views| == |lines|
      ensures forall i :: 0 <= i < |views| ==> views[i] == ViewOf(lines, highlightedRange, i)
    {
      seq(|lines|, i requires 0 <= i < |lines| reads this => ViewOf(lines, highlightedRange, i))
    }
  }
}
