/**
 * The system-documentation index (scripts/generate_system_docs_index.py):
 * a brace-balance scanner that finds the line range of every object in a
 * JSON file's root array, one search record per object, and the walk over
 * the data directory.
 */
module SystemDocsIndex {
  import opened Wrappers
  import opened Strings
  import opened Numerals

  const BaseDir := "apps/api/algolia"
  const OutputFile := "apps/api/algolia/system_docs.json"

  /** The 1-based first and last line of one object. */
  datatype LineRange = LineRange(start: nat, end: nat)

  /** The scanner's variables after some number of lines. */
  datatype ScanState = ScanState(
    inArray: bool,
    balance: int,
    start: Option<nat>,
    objects: seq<LineRange>,
    stopped: bool)

  const InitialScan := ScanState(false, 0, None, [], false)

  /** What the scanner looks at in one line. */
  datatype LineInfo = LineInfo(hasBracket: bool, isClosingBracket: bool, opens: nat, closes: nat)

  /**
   * `"[" in line.strip()`, `line.strip() == "]"`, and the number of `{` and
   * `}` in the line.
   */
  function Classify(line: string): LineInfo {
    LineInfo('[' in Trim(line), Trim(line) == "]", CountChar(line, '{'), CountChar(line, '}'))
  }

  function Classified(lines: seq<string>): (infos: seq<LineInfo>)
    ensures |infos| == |lines|
  {
    seq(|lines|, i requires 0 <= i < |lines| => Classify(lines[i]))
  }

  /**
   * One iteration of the scanner on line `i` (0-based): before the array it
   * only looks for `[`; a line that is exactly `]` at balance 0 ends the
   * scan; otherwise `{` opens (recording the start when the balance was 0)
   * and `}` closes (recording a range when the balance returns to 0), and a
   * negative balance is reset to 0.
   */
  function Step(st: ScanState, i: nat, line: LineInfo): ScanState {
    if st.stopped then st
    else if !st.inArray then (if line.hasBracket then st.(inArray := true) else st)
    else if line.isClosingBracket && st.balance == 0 then st.(stopped := true)
    else Braces(st, i, line.opens, line.closes)
  }

  /** The brace-counting part of one iteration, given the line's `{` and `}` counts. */
  function Braces(st: ScanState, i: nat, opens: nat, closes: nat): ScanState {
    var start1 := if opens > 0 && st.balance == 0 then Some(i + 1) else st.start;
    var balance1 := st.balance + opens;
    var balance2 := if closes > 0 then balance1 - closes else balance1;
    var closed := closes > 0 && balance2 == 0 && start1.Some?;
    var objects2 := if closed then st.objects + [LineRange(start1.value, i + 1)] else st.objects;
    var start2 := if closed then None else start1;
    ScanState(true, if balance2 < 0 then 0 else balance2, start2, objects2, false)
  }

  /** The scanner's state after the first `k` lines. */
  function ScanPrefix(infos: seq<LineInfo>, k: nat): ScanState
    requires k <= |infos|
  {
    if k == 0 then InitialScan else Step(ScanPrefix(infos, k - 1), k - 1, infos[k - 1])
  }

  /** The scanner's state after the first `k` lines of the file. */
  function ScanLines(lines: seq<string>, k: nat): ScanState
    requires k <= |lines|
  {
    if k == 0 then InitialScan else Step(ScanLines(lines, k - 1), k - 1, Classify(lines[k - 1]))
  }

  lemma {:induction false} ScanLinesIsScanPrefix(lines: seq<string>, k: nat)
    requires k <= |lines|
    ensures ScanLines(lines, k) == ScanPrefix(Classified(lines), k)
  {
    if k > 0 {
      ScanLinesIsScanPrefix(lines, k - 1);
    }
  }

  /** `get_line_numbers`: the ranges found in the whole file. */
  function LineNumbers(lines: seq<string>): seq<LineRange> {
    ScanLines(lines, |lines|).objects
  }

  lemma ScanLinesStep(lines: seq<string>, i: nat, stripped: string)
    requires i < |lines| && stripped == Trim(lines[i])
    ensures ScanLines(lines, i + 1) == Step(ScanLines(lines, i), i,
      LineInfo('[' in stripped, stripped == "]", CountChar(lines[i], '{'), CountChar(lines[i], '}')))
  {
  }

  /** `get_line_numbers` as written: a loop over the lines of the file. */
  method GetLineNumbers(lines: seq<string>) returns (objects: seq<LineRange>)
    ensures objects == LineNumbers(lines)
  {
    objects := [];
    var currentStart: Option<nat> := None;
    var braceBalance: int := 0;
    var inArray := false;
    var i := 0;
    while i < |lines|
      invariant 0 <= i <= |lines|
      invariant ScanLines(lines, i) == ScanState(inArray, braceBalance, currentStart, objects, false)
    {
      var line := lines[i];
      var stripped := Trim(line);
      ghost var st := ScanLines(lines, i);
      ScanLinesStep(lines, i, stripped);
      assert ScanLines(lines, i + 1) ==
        Step(st, i, LineInfo('[' in stripped, stripped == "]", CountChar(line, '{'), CountChar(line, '}')));
      if !inArray {
        if '[' in stripped {
          inArray := true;
        }
        i := i + 1;
        continue;
      }
      if stripped == "]" && braceBalance == 0 {
        StoppedLinesAreFinal(lines, i + 1, |lines|);
        return;
      }
      var openBraces := CountChar(line, '{');
      var closeBraces := CountChar(line, '}');
      ghost var next := Braces(ScanLines(lines, i), i, openBraces, closeBraces);
      var closed;
      braceBalance, currentStart, closed := CountBraces(braceBalance, currentStart, i, openBraces, closeBraces);
      if closed.Some? {
        objects := objects + [closed.value];
      }
      assert next == ScanState(inArray, braceBalance, currentStart, objects, false);
      i := i + 1;
    }
  }

  /**
   * The brace counting of one line: the new balance and start, and the range
   * closed on this line, if any.
   */
  method CountBraces(balance: int, start: Option<nat>, i: nat, opens: nat, closes: nat)
    returns (braceBalance: int, currentStart: Option<nat>, closed: Option<LineRange>)
    ensures var next := Braces(ScanState(true, balance, start, [], false), i, opens, closes);
      braceBalance == next.balance && currentStart == next.start &&
      (if closed.Some? then next.objects == [closed.value] else next.objects == [])
  {
    braceBalance, currentStart, closed := balance, start, None;
    if opens > 0 {
      if braceBalance == 0 {
        currentStart := Some(i + 1);
      }
      braceBalance := braceBalance + opens;
    }
    if closes > 0 {
      braceBalance := braceBalance - closes;
      if braceBalance == 0 && currentStart.Some? {
        closed := Some(LineRange(currentStart.value, i + 1));
        currentStart := None;
      }
    }
    if braceBalance < 0 {
      braceBalance := 0;
    }
  }

  /** Once the scan has stopped, no later line changes anything. */
  lemma {:induction false} StoppedLinesAreFinal(lines: seq<string>, k: nat, m: nat)
    requires k <= m <= |lines|
    requires ScanLines(lines, k).stopped
    ensures ScanLines(lines, m) == ScanLines(lines, k)
  {
    if m > k {
      StoppedLinesAreFinal(lines, k, m - 1);
    }
  }


  lemma {:induction false} StoppedScanIsFinal(infos: seq<LineInfo>, k: nat, m: nat)
    requires k <= m <= |infos|
    requires ScanPrefix(infos, k).stopped
    ensures ScanPrefix(infos, m) == ScanPrefix(infos, k)
  {
    if m > k {
      StoppedScanIsFinal(infos, k, m - 1);
    }
  }

  /** The scan of the first `k` lines depends on those lines only. */
  lemma {:induction false} ScanPrefixOfPrefix(infos: seq<LineInfo>, more: seq<LineInfo>, k: nat)
    requires k <= |infos|
    ensures ScanPrefix(infos + more, k) == ScanPrefix(infos, k)
  {
    if k > 0 {
      ScanPrefixOfPrefix(infos, more, k - 1);
      assert (infos + more)[k - 1] == infos[k - 1];
    }
  }

  lemma ClassifiedConcat(a: seq<string>, b: seq<string>)
    ensures Classified(a + b) == Classified(a) + Classified(b)
  {
    var l := Classified(a + b);
    var r := Classified(a) + Classified(b);
    forall i | 0 <= i < |l| ensures l[i] == r[i] {
      if i < |a| { assert (a + b)[i] == a[i]; } else { assert (a + b)[i] == b[i - |a|]; }
    }
  }

  /**
   * Scanning stops at a line that is exactly `]` at balance 0: once that line
   * is reached, whatever follows it adds no range.
   */
  lemma LinesAfterStopAreIgnored(lines: seq<string>, more: seq<string>)
    requires ScanPrefix(Classified(lines), |lines|).stopped
    ensures LineNumbers(lines + more) == LineNumbers(lines)
  {
    var infos := Classified(lines);
    ClassifiedConcat(lines, more);
    var all := Classified(lines + more);
    ScanPrefixOfPrefix(infos, Classified(more), |lines|);
    StoppedScanIsFinal(all, |lines|, |all|);
    ScanLinesIsScanPrefix(lines, |lines|);
    ScanLinesIsScanPrefix(lines + more, |lines + more|);
  }

  /** The first line at or after `from` that contains `[`. */
  function FirstBracketFrom(infos: seq<LineInfo>, from: nat): (r: Option<nat>)
    requires from <= |infos|
    ensures r.Some? ==> from <= r.value < |infos| && infos[r.value].hasBracket
    ensures r.Some? ==> forall j :: from <= j < r.value ==> !infos[j].hasBracket
    ensures r.None? ==> forall j :: from <= j < |infos| ==> !infos[j].hasBracket
    decreases |infos| - from
  {
    if from == |infos| then None
    else if infos[from].hasBracket then Some(from)
    else FirstBracketFrom(infos, from + 1)
  }

  /** The (0-based) index of the first line whose stripped text contains `[`. */
  function FirstBracketLine(lines: seq<string>): (r: Option<nat>)
    ensures r.Some? ==> r.value < |lines| && '[' in Trim(lines[r.value])
    ensures r.Some? ==> forall j :: 0 <= j < r.value ==> '[' !in Trim(lines[j])
    ensures r.None? ==> forall j :: 0 <= j < |lines| ==> '[' !in Trim(lines[j])
  {
    var infos := Classified(lines);
    var r := FirstBracketFrom(infos, 0);
    assert forall j :: 0 <= j < |lines| ==> infos[j] == Classify(lines[j]);
    r
  }

  function LastEnd(objects: seq<LineRange>): nat {
    if objects == [] then 0 else objects[|objects| - 1].end
  }

  /**
   * Ranges that start after the 1-based line `floor`, have start at most
   * end, and come in strictly increasing, non-overlapping order.
   */
  predicate WellFormedRanges(objects: seq<LineRange>, floor: nat) {
    (forall i :: 0 <= i < |objects| ==> floor < objects[i].start <= objects[i].end) &&
    (forall i, j :: 0 <= i < j < |objects| ==> objects[i].end < objects[j].start)
  }

  /** What holds of the scanner's state after `k` lines. */
  predicate ScanInvariant(infos: seq<LineInfo>, k: nat, st: ScanState)
    requires k <= |infos|
  {
    st.balance >= 0 &&
    (st.stopped ==> st.inArray) &&
    (!st.inArray ==> st.objects == [] && st.start.None? && forall j :: 0 <= j < k ==> !infos[j].hasBracket) &&
    (st.inArray ==>
      var first := FirstBracketFrom(infos, 0);
      first.Some? && first.value < k &&
      WellFormedRanges(st.objects, first.value + 1) &&
      LastEnd(st.objects) <= k &&
      (st.start.Some? ==> LastEnd(st.objects) < st.start.value <= k && first.value + 1 < st.start.value))
  }

  /** Appending a range that starts after every earlier one keeps the ranges well formed. */
  lemma AppendRangeWellFormed(objects: seq<LineRange>, floor: nat, r: LineRange)
    requires WellFormedRanges(objects, floor)
    requires floor < r.start <= r.end && LastEnd(objects) < r.start
    ensures WellFormedRanges(objects + [r], floor)
  {
    var o := objects + [r];
    forall i, j | 0 <= i < j < |o| ensures o[i].end < o[j].start {
      assert o[i] == objects[i];
      if j < |objects| {
        assert o[j] == objects[j];
      } else {
        assert objects[i].end <= LastEnd(objects);
      }
    }
  }

  lemma BracesKeepInvariant(infos: seq<LineInfo>, k: nat, st: ScanState, opens: nat, closes: nat)
    requires k < |infos| && st.inArray && !st.stopped && ScanInvariant(infos, k, st)
    ensures ScanInvariant(infos, k + 1, Braces(st, k, opens, closes))
  {
    var first := FirstBracketFrom(infos, 0).value;
    var start1 := if opens > 0 && st.balance == 0 then Some(k + 1) else st.start;
    var balance2 := if closes > 0 then st.balance + opens - closes else st.balance + opens;
    if closes > 0 && balance2 == 0 && start1.Some? {
      AppendRangeWellFormed(st.objects, first + 1, LineRange(start1.value, k + 1));
    }
  }

  lemma StepKeepsInvariant(infos: seq<LineInfo>, k: nat, st: ScanState)
    requires k < |infos| && ScanInvariant(infos, k, st)
    ensures ScanInvariant(infos, k + 1, Step(st, k, infos[k]))
  {
    var line := infos[k];
    if st.stopped {
    } else if !st.inArray {
      if line.hasBracket {
        var first := FirstBracketFrom(infos, 0);
        assert first.Some? && first.value == k;
      }
    } else if line.isClosingBracket && st.balance == 0 {
    } else {
      BracesKeepInvariant(infos, k, st, line.opens, line.closes);
    }
  }

  lemma {:induction false} ScanPrefixInvariant(infos: seq<LineInfo>, k: nat)
    requires k <= |infos|
    ensures ScanInvariant(infos, k, ScanPrefix(infos, k))
  {
    if k > 0 {
      ScanPrefixInvariant(infos, k - 1);
      var st := ScanPrefix(infos, k - 1);
      StepKeepsInvariant(infos, k - 1, st);
    }
  }

  /**
   * Every range `get_line_numbers` returns is 1-based with start at most end,
   * starts after the first line that contains `[`, and the ranges come in
   * strictly increasing, non-overlapping order; the brace balance is never
   * negative between lines.
   */
  lemma LineNumbersWellFormed(lines: seq<string>)
    ensures LineNumbers(lines) != [] ==> FirstBracketLine(lines).Some?
    ensures FirstBracketLine(lines).Some? ==> WellFormedRanges(LineNumbers(lines), FirstBracketLine(lines).value + 1)
    ensures forall k :: 0 <= k <= |lines| ==> ScanPrefix(Classified(lines), k).balance >= 0
  {
    var infos := Classified(lines);
    ScanLinesIsScanPrefix(lines, |lines|);
    ScanPrefixInvariant(infos, |lines|);
    forall k | 0 <= k <= |lines| ensures ScanPrefix(infos, k).balance >= 0 {
      ScanPrefixInvariant(infos, k);
    }
  }

  /** An object of the root array, as the JSON decoder gives it. */
  datatype DocObject = DocObject(
    objectID: Option<string>,
    title: Option<string>,
    tags: Option<seq<string>>,
    json: string)

  /** What decoding a file gives: a decode error, some other value, or a list of objects. */
  datatype Decoded = DecodeError | NotAList | Objects(items: seq<DocObject>)

  /** One file as the script sees it: its path, its decoded content and its lines. */
  datatype SourceFile = SourceFile(path: string, decoded: Decoded, lines: seq<string>)

  /** One record of the system-documentation index. */
  datatype SystemDocRecord = SystemDocRecord(
    objectID: string,
    nodeType: string,
    title: string,
    docPath: string,
    startLine: nat,
    endLine: nat,
    url: string,
    content: string,
    tags: seq<string>)

  /** A path found under the data directory. */
  predicate UnderBaseDir(path: string) {
    StartsWith(path, BaseDir + "/")
  }

  /** `os.path.relpath(path, BASE_DIR)` for a path under the data directory. */
  function RelPath(path: string): (rel: string)
    requires UnderBaseDir(path)
    ensures BaseDir + "/" + rel == path
  {
    path[|BaseDir| + 1..]
  }

  /** The record for one object and its line range. */
  function RecordFor(obj: DocObject, range: LineRange, rel: string): SystemDocRecord {
    SystemDocRecord(
      "sysdoc_" + obj.objectID.GetOr("unknown"),
      "system_doc",
      obj.title.GetOr("Untitled"),
      rel,
      range.start,
      range.end,
      "/system/doc/" + rel + "#L" + NatToString(range.start) + "-L" + NatToString(range.end),
      obj.json,
      obj.tags.GetOr([]))
  }

  /** The records `process_file` yields for a file, as a function. */
  function FileRecords(file: SourceFile): seq<SystemDocRecord>
    requires UnderBaseDir(file.path)
  {
    if !file.decoded.Objects? then []
    else
      var items := file.decoded.items;
      var ranges := LineNumbers(file.lines);
      if |items| != |ranges| then []
      else seq(|items|, i requires 0 <= i < |items| => RecordFor(items[i], ranges[i], RelPath(file.path)))
  }

  /**
   * `process_file`: no record for a file that does not decode to a list or
   * whose range count differs from its object count; otherwise one record per
   * object, in order, carrying that object's range.
   */
  method ProcessFile(file: SourceFile) returns (records: seq<SystemDocRecord>)
    requires UnderBaseDir(file.path)
    ensures records == FileRecords(file)
    ensures !file.decoded.Objects? ==> records == []
    ensures file.decoded.Objects? && |file.decoded.items| != |LineNumbers(file.lines)| ==> records == []
  {
    if !file.decoded.Objects? {
      return [];
    }
    var data := file.decoded.items;
    var lineInfo := GetLineNumbers(file.lines);
    if |data| != |lineInfo| {
      return [];
    }
    records := [];
    var relPath := RelPath(file.path);
    var i := 0;
    while i < |data|
      invariant 0 <= i <= |data|
      invariant records == seq(i, k requires 0 <= k < i => RecordFor(data[k], lineInfo[k], relPath))
    {
      records := records + [RecordFor(data[i], lineInfo[i], relPath)];
      i := i + 1;
    }
  }

  /**
   * Record `i` of a file that produced records names object `i`, the system
   * doc type and the file, and its URL points at that object's line range.
   */
  lemma FileRecordFields(file: SourceFile, i: nat)
    requires UnderBaseDir(file.path) && i < |FileRecords(file)|
    ensures file.decoded.Objects? && |file.decoded.items| == |LineNumbers(file.lines)|
    ensures var r := FileRecords(file)[i];
      var obj := file.decoded.items[i];
      var range := LineNumbers(file.lines)[i];
      r.objectID == "sysdoc_" + obj.objectID.GetOr("unknown") &&
      r.title == obj.title.GetOr("Untitled") &&
      r.nodeType == "system_doc" &&
      BaseDir + "/" + r.docPath == file.path &&
      r.startLine == range.start && r.endLine == range.end && 1 <= r.startLine <= r.endLine &&
      StartsWith(r.url, "/system/doc/" + r.docPath + "#L") &&
      r.tags == obj.tags.GetOr([])
  {
    LineNumbersWellFormed(file.lines);
    var range := LineNumbers(file.lines)[i];
    assert range in LineNumbers(file.lines);
  }

  /** `main`'s filter: not the output file and no `package.json` in the path. */
  predicate Included(path: string) {
    path != OutputFile && !Contains(path, "package.json")
  }

  /** All records of the included files, in file order. */
  function AllRecords(files: seq<SourceFile>): seq<SystemDocRecord>
    requires forall f :: f in files ==> UnderBaseDir(f.path)
  {
    if files == [] then []
    else
      var last := files[|files| - 1];
      AllRecords(files[..|files| - 1]) + (if Included(last.path) then FileRecords(last) else [])
  }

  /** `main`: the records of every included file, concatenated in file order. */
  method BuildIndex(files: seq<SourceFile>) returns (allRecords: seq<SystemDocRecord>)
    requires forall f :: f in files ==> UnderBaseDir(f.path)
    ensures allRecords == AllRecords(files)
  {
    allRecords := [];
    var i := 0;
    while i < |files|
      invariant 0 <= i <= |files|
      invariant allRecords == AllRecords(files[..i])
    {
      assert files[..i + 1][..i] == files[..i];
      var f := files[i];
      if f.path == OutputFile {
        i := i + 1;
        continue;
      }
      if Contains(f.path, "package.json") {
        i := i + 1;
        continue;
      }
      var records := ProcessFile(f);
      allRecords := allRecords + records;
      i := i + 1;
    }
    assert files[..|files|] == files;
  }

  /** Every record in the index comes from an included file: never the output file, never a `package.json`. */
  lemma {:induction false} IndexRecordsFromIncludedFiles(files: seq<SourceFile>, r: SystemDocRecord)
    requires forall f :: f in files ==> UnderBaseDir(f.path)
    requires r in AllRecords(files)
    ensures exists f :: f in files && Included(f.path) && r in FileRecords(f)
  {
    var last := files[|files| - 1];
    var init := files[..|files| - 1];
    if r in AllRecords(init) {
      IndexRecordsFromIncludedFiles(init, r);
      var f :| f in init && Included(f.path) && r in FileRecords(f);
      assert f in files;
    } else {
      assert last in files;
    }
  }
}
