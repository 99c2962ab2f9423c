/** The dashboard's reader of the daily Markdown report (parseMarkdownReport in
    dashboard/app.js): the date from the title, the summary figures, the two breakdowns and
    the incident table, found by scanning the report's lines. */
module Dashboard {
  import opened Wrappers
  import opened Strings

  /** A summary figure: the number parseInt read, or the trimmed text when it read none. */
  datatype SummaryValue = Num(n: int) | Text(s: string)

  /** One breakdown entry, `{name, count}`. */
  datatype Breakdown = Breakdown(name: string, count: int)

  /** The parsed report; `date` is null when no title line gives one. The incident rows map
      header cells to row cells. */
  datatype Report = Report(
    date: Option<string>,
    summary: map<string, SummaryValue>,
    byEvent: seq<Breakdown>,
    byRemediation: seq<Breakdown>,
    incidents: seq<map<string, string>>)

  const TITLE_MARK := "# Daily Cloud Incident Report"
  const SUMMARY_LABEL := "**Summary**"
  const EVENT_LABEL := "**By event type**"
  const REMEDIATION_LABEL := "**By remediation type**"
  const DETAILS_MARK := "## Incident Details"

  /** The line searches the parser makes with find/findIndex. */
  datatype LineTest = TitleLine | SectionLine(heading: string) | DetailsLine

  predicate Matches(test: LineTest, line: string) {
    match test
    case TitleLine => StartsWith(line, TITLE_MARK)
    case SectionLine(heading) => Lower(Strip(line)) == Lower(heading)
    case DetailsLine => StartsWith(Strip(line), DETAILS_MARK)
  }

  /** `lines.findIndex(...)`: the first matching line; None stands for -1. */
  function FindFirst(lines: seq<string>, test: LineTest): (r: Option<nat>)
    ensures r.Some? ==> r.value < |lines|
  {
    FindFrom(lines, test, 0)
  }

  /** The first matching line at or after `i`. */
  function FindFrom(lines: seq<string>, test: LineTest, i: nat): (r: Option<nat>)
    requires i <= |lines|
    ensures r.Some? ==> i <= r.value < |lines|
    decreases |lines| - i
  {
    if i == |lines| then None
    else if Matches(test, lines[i]) then Some(i)
    else FindFrom(lines, test, i + 1)
  }

  lemma {:induction false} FindFromShape(lines: seq<string>, test: LineTest, i: nat)
    requires i <= |lines|
    ensures FindFrom(lines, test, i).None? <==> forall j :: i <= j < |lines| ==> !Matches(test, lines[j])
    ensures FindFrom(lines, test, i).Some? ==> Matches(test, lines[FindFrom(lines, test, i).value])
    ensures FindFrom(lines, test, i).Some? ==>
      forall j :: i <= j < FindFrom(lines, test, i).value ==> !Matches(test, lines[j])
    decreases |lines| - i
  {
    if i < |lines| && !Matches(test, lines[i]) {
      FindFromShape(lines, test, i + 1);
    }
  }

  /** findIndex: None exactly when no line matches; otherwise the first line that does. */
  lemma FindFirstShape(lines: seq<string>, test: LineTest)
    ensures FindFirst(lines, test).None? <==> forall j :: 0 <= j < |lines| ==> !Matches(test, lines[j])
    ensures FindFirst(lines, test).Some? ==> Matches(test, lines[FindFirst(lines, test).value])
    ensures FindFirst(lines, test).Some? ==>
      forall j :: 0 <= j < FindFirst(lines, test).value ==> !Matches(test, lines[j])
  {
    FindFromShape(lines, test, 0);
  }

  /** The date: the trimmed text after the last "-" of the first title line. */
  function DateOf(lines: seq<string>): Option<string> {
    match FindFirst(lines, TitleLine)
    case None => None
    case Some(i) => DateOfLine(lines[i])
  }

  /** The date a title line carries: the text after its last "-", stripped. */
  function DateOfLine(line: string): Option<string> {
    match LastIndexOf(line, '-')
    case None => None
    case Some(idx) => Some(Strip(line[idx + 1..]))
  }

  /** The line, once trimmed, starts with `mark`. */
  predicate Marked(line: string, mark: char) {
    StartsWith(Strip(line), [mark])
  }

  /** The end of the run of consecutive marked lines from `i`. */
  function RunEnd(lines: seq<string>, i: nat, mark: char): (r: nat)
    requires i <= |lines|
    ensures i <= r <= |lines|
    decreases |lines| - i
  {
    if i < |lines| && Marked(lines[i], mark) then RunEnd(lines, i + 1, mark) else i
  }

  /** Every line of the run is marked and the line that ends it is not. */
  lemma {:induction false} RunEndShape(lines: seq<string>, i: nat, mark: char)
    requires i <= |lines|
    ensures forall j :: i <= j < RunEnd(lines, i, mark) ==> Marked(lines[j], mark)
    ensures RunEnd(lines, i, mark) < |lines| ==> !Marked(lines[RunEnd(lines, i, mark)], mark)
    decreases |lines| - i
  {
    if i < |lines| && Marked(lines[i], mark) {
      RunEndShape(lines, i + 1, mark);
    }
  }

  /** The first line from `i` on whose trimmed text starts with "|", or the end. */
  function SkipToPipe(lines: seq<string>, i: nat): (r: nat)
    requires i <= |lines|
    ensures i <= r <= |lines|
    decreases |lines| - i
  {
    if i < |lines| && !Marked(lines[i], '|') then SkipToPipe(lines, i + 1) else i
  }

  /** No line before the result is marked with "|", and the result, if a line, is. */
  lemma {:induction false} SkipToPipeShape(lines: seq<string>, i: nat)
    requires i <= |lines|
    ensures forall j :: i <= j < SkipToPipe(lines, i) ==> !Marked(lines[j], '|')
    ensures SkipToPipe(lines, i) < |lines| ==> Marked(lines[SkipToPipe(lines, i)], '|')
    decreases |lines| - i
  {
    if i < |lines| && !Marked(lines[i], '|') {
      SkipToPipeShape(lines, i + 1);
    }
  }

  /** `s.slice(1)`. */
  function Rest(s: string): string {
    if s == "" then "" else s[1..]
  }

  /** A bullet's text: trimmed, stripped of its leading "-", trimmed again. */
  function BulletText(line: string): string {
    Strip(Rest(Strip(line)))
  }

  /** `const [k, v] = text.split(":")`, when `k` is non-empty and `v` exists. */
  function KeyValue(line: string): Option<(string, string)> {
    var parts := Split(BulletText(line), ':');
    if |parts| >= 2 && parts[0] != "" then Some((parts[0], parts[1])) else None
  }

  /** A pair read from a bullet has a non-empty key, and neither half holds ":"; a bullet
      whose text has no ":" gives none. */
  lemma KeyValueShape(line: string)
    ensures KeyValue(line).Some? ==>
      KeyValue(line).value.0 != "" && ':' !in KeyValue(line).value.0 && ':' !in KeyValue(line).value.1
    ensures ':' !in BulletText(line) ==> KeyValue(line).None?
  {
    SplitShape(BulletText(line), ':');
    if ':' !in BulletText(line) {
      SplitNoSep(BulletText(line), ':');
    }
  }

  // ----- Summary

  function SummaryKey(k: string): string {
    Lower(Strip(k))
  }

  function SummaryValueOf(v: string): SummaryValue {
    match ParseIntJs(v)
    case Some(n) => Num(n)
    case None => Text(Strip(v))
  }

  /** One summary line: sets the key it names, or is skipped. */
  function SummaryStep(summary: map<string, SummaryValue>, line: string): map<string, SummaryValue> {
    match KeyValue(line)
    case None => summary
    case Some((k, v)) => summary[SummaryKey(k) := SummaryValueOf(v)]
  }

  /** The summary the loop builds from lines `start` to `end` (exclusive). */
  function SummaryOf(lines: seq<string>, start: nat, end: nat): map<string, SummaryValue>
    requires start <= end <= |lines|
    decreases end
  {
    if end == start then map[] else SummaryStep(SummaryOf(lines, start, end - 1), lines[end - 1])
  }

  // ----- Breakdowns

  function BreakdownItem(line: string): Option<Breakdown> {
    match KeyValue(line)
    case None => None
    case Some((name, count)) => Some(Breakdown(Strip(name), ParseIntJs(count).GetOr(0)))
  }

  /** The entries the loop pushes from lines `start` to `end`, one per line that has a name
      and a count. */
  function BreakdownsOf(lines: seq<string>, start: nat, end: nat): (r: seq<Breakdown>)
    requires start <= end <= |lines|
    ensures |r| <= end - start
    decreases end
  {
    if end == start then [] else BreakdownStep(BreakdownsOf(lines, start, end - 1), lines[end - 1])
  }

  /** One line of a breakdown loop: pushes its entry, if it has one. */
  function BreakdownStep(entries: seq<Breakdown>, line: string): (r: seq<Breakdown>)
    ensures |r| <= |entries| + 1
  {
    var item := BreakdownItem(line);
    if item.Some? then entries + [item.value] else entries
  }

  lemma BreakdownsOfNext(lines: seq<string>, start: nat, i: nat)
    requires start <= i < |lines|
    ensures BreakdownsOf(lines, start, i + 1) == BreakdownStep(BreakdownsOf(lines, start, i), lines[i])
  {
  }

  // ----- Incident table

  /** `.split("|").map(trim).filter(Boolean)`. */
  function Cells(line: string): seq<string> {
    KeepNonEmpty(Split(line, '|'))
  }

  function KeepNonEmpty(parts: seq<string>): seq<string> {
    if parts == [] then []
    else
      var c := Strip(parts[0]);
      (if c == "" then [] else [c]) + KeepNonEmpty(parts[1..])
  }

  /** Every kept cell is non-empty, stripped, and holds no "|". */
  lemma {:induction false} KeepNonEmptyShape(parts: seq<string>)
    requires forall k :: 0 <= k < |parts| ==> '|' !in parts[k]
    ensures |KeepNonEmpty(parts)| <= |parts|
    ensures forall k :: 0 <= k < |KeepNonEmpty(parts)| ==>
      KeepNonEmpty(parts)[k] != "" && '|' !in KeepNonEmpty(parts)[k]
  {
    if parts != [] {
      assert forall k :: 1 <= k < |parts| ==> parts[k] == parts[1..][k - 1];
      KeepNonEmptyShape(parts[1..]);
      StripShape(parts[0]);
    }
  }

  lemma CellsShape(line: string)
    ensures forall k :: 0 <= k < |Cells(line)| ==> Cells(line)[k] != "" && '|' !in Cells(line)[k]
  {
    SplitShape(line, '|');
    KeepNonEmptyShape(Split(line, '|'));
  }

  /** `headers.forEach((h, idx) => obj[h] = cells[idx])`: a later header overwrites an
      earlier one of the same name. */
  function RowObject(headers: seq<string>, cells: seq<string>): map<string, string>
    requires |headers| == |cells|
  {
    if headers == [] then map[]
    else
      var n := |headers| - 1;
      RowObject(headers[..n], cells[..n])[headers[n] := cells[n]]
  }

  /** Column `k` is the last one named `headers[k]`. */
  predicate LastColumn(headers: seq<string>, k: nat)
    requires k < |headers|
  {
    forall j :: k < j < |headers| ==> headers[j] != headers[k]
  }

  /** The row's keys are exactly the headers. */
  lemma {:induction false} RowObjectKeys(headers: seq<string>, cells: seq<string>)
    requires |headers| == |cells|
    ensures RowObject(headers, cells).Keys == set k | 0 <= k < |headers| :: headers[k]
  {
    if headers != [] {
      var n := |headers| - 1;
      RowObjectKeys(headers[..n], cells[..n]);
      assert forall k :: 0 <= k < n ==> headers[..n][k] == headers[k];
      assert (set k | 0 <= k < |headers| :: headers[k])
          == (set k | 0 <= k < n :: headers[..n][k]) + {headers[n]};
    }
  }

  /** Each header maps to the cell under the last column of that name. */
  lemma {:induction false} RowObjectValues(headers: seq<string>, cells: seq<string>, k: nat)
    requires |headers| == |cells| && k < |headers| && LastColumn(headers, k)
    ensures headers[k] in RowObject(headers, cells)
    ensures RowObject(headers, cells)[headers[k]] == cells[k]
  {
    var n := |headers| - 1;
    if k < n {
      assert headers[..n][k] == headers[k] && cells[..n][k] == cells[k];
      assert LastColumn(headers[..n], k) by {
        assert forall j :: k < j < n ==> headers[..n][j] == headers[j];
      }
      RowObjectValues(headers[..n], cells[..n], k);
      assert headers[n] != headers[k];
    }
  }

  /** The rows the loop pushes: one per line with exactly as many cells as the header. */
  function TableRows(headers: seq<string>, lines: seq<string>, start: nat, end: nat)
    : (rows: seq<map<string, string>>)
    requires start <= end <= |lines|
    ensures |rows| <= end - start
    decreases end
  {
    if end == start then []
    else
      TableStep(headers, TableRows(headers, lines, start, end - 1), lines[end - 1])
  }

  /** One line of the row loop: pushed when it has as many cells as the header. */
  function TableStep(headers: seq<string>, rows: seq<map<string, string>>, line: string)
    : seq<map<string, string>>
  {
    var cells := Cells(line);
    if |cells| == |headers| then rows + [RowObject(headers, cells)] else rows
  }

  /** The header and separator lines are both present, and the header holds a "|". */
  predicate TableStarts(headerLine: string, separatorLine: string) {
    headerLine != "" && separatorLine != "" && '|' in headerLine
  }

  /** The table after the details heading at `from`: the first "|" line is the header, the
      next line the separator, and the rows are the "|" lines that follow. */
  function TableOf(lines: seq<string>, from: nat): seq<map<string, string>>
    requires from <= |lines|
  {
    var i := SkipToPipe(lines, from);
    var headerLine := if i < |lines| then lines[i] else "";
    var separatorLine := if i + 1 < |lines| then lines[i + 1] else "";
    if TableStarts(headerLine, separatorLine) then
      TableRows(Cells(headerLine), lines, i + 2, RunEnd(lines, i + 2, '|'))
    else []
  }

  // ----- The whole report

  function SummarySection(lines: seq<string>): map<string, SummaryValue> {
    match FindFirst(lines, SectionLine(SUMMARY_LABEL))
    case None => map[]
    case Some(i) => SummaryOf(lines, i + 1, RunEnd(lines, i + 1, '-'))
  }

  function BreakdownSection(lines: seq<string>, heading: string): seq<Breakdown> {
    match FindFirst(lines, SectionLine(heading))
    case None => []
    case Some(i) => BreakdownsOf(lines, i + 1, RunEnd(lines, i + 1, '-'))
  }

  function DetailsSection(lines: seq<string>): seq<map<string, string>> {
    match FindFirst(lines, DetailsLine)
    case None => []
    case Some(i) => TableOf(lines, i)
  }

  /** The specification of parseMarkdownReport: null for the empty text, otherwise the five
      parts read from its lines. */
  function ParseSpec(md: string): (r: Option<Report>)
    ensures r.None? <==> md == ""
  {
    if md == "" then None
    else
      var lines := Split(md, '\n');
      Some(Report(DateOf(lines), SummarySection(lines), BreakdownSection(lines, EVENT_LABEL),
                  BreakdownSection(lines, REMEDIATION_LABEL), DetailsSection(lines)))
  }

  // ----- The parser's loops

  lemma SummaryOfNext(lines: seq<string>, start: nat, i: nat)
    requires start <= i < |lines|
    ensures SummaryOf(lines, start, i + 1) == SummaryStep(SummaryOf(lines, start, i), lines[i])
  {
  }

  lemma TableRowsNext(headers: seq<string>, lines: seq<string>, start: nat, i: nat)
    requires start <= i < |lines|
    ensures TableRows(headers, lines, start, i + 1)
         == TableStep(headers, TableRows(headers, lines, start, i), lines[i])
  {
  }

  /** The summary loop from the line after the heading. */
  method ReadSummary(lines: seq<string>, start: nat) returns (summary: map<string, SummaryValue>)
    requires start <= |lines|
    ensures summary == SummaryOf(lines, start, RunEnd(lines, start, '-'))
  {
    summary := map[];
    var i := start;
    while i < |lines| && Marked(lines[i], '-')
      invariant start <= i <= |lines|
      invariant RunEnd(lines, i, '-') == RunEnd(lines, start, '-')
      invariant summary == SummaryOf(lines, start, i)
      decreases |lines| - i
    {
      SummaryOfNext(lines, start, i);
      summary := SummaryStep(summary, lines[i]);
      i := i + 1;
    }
  }

  /** The loop of either breakdown, from the line after its heading. */
  method ReadBreakdown(lines: seq<string>, start: nat) returns (entries: seq<Breakdown>)
    requires start <= |lines|
    ensures entries == BreakdownsOf(lines, start, RunEnd(lines, start, '-'))
  {
    entries := [];
    var i := start;
    while i < |lines| && Marked(lines[i], '-')
      invariant start <= i <= |lines|
      invariant RunEnd(lines, i, '-') == RunEnd(lines, start, '-')
      invariant entries == BreakdownsOf(lines, start, i)
      decreases |lines| - i
    {
      BreakdownsOfNext(lines, start, i);
      entries := BreakdownStep(entries, lines[i]);
      i := i + 1;
    }
  }

  /** The row loop, from the line after the separator. */
  method ReadRows(lines: seq<string>, headers: seq<string>, start: nat) returns (rows: seq<map<string, string>>)
    requires start <= |lines|
    ensures rows == TableRows(headers, lines, start, RunEnd(lines, start, '|'))
  {
    rows := [];
    var i := start;
    while i < |lines| && Marked(lines[i], '|')
      invariant start <= i <= |lines|
      invariant RunEnd(lines, i, '|') == RunEnd(lines, start, '|')
      invariant rows == TableRows(headers, lines, start, i)
      decreases |lines| - i
    {
      TableRowsNext(headers, lines, start, i);
      rows := TableStep(headers, rows, lines[i]);
      i := i + 1;
    }
  }

  /** The loop that skips to the first "|" line. */
  method SkipToHeader(lines: seq<string>, from: nat) returns (i: nat)
    requires from <= |lines|
    ensures i == SkipToPipe(lines, from)
  {
    i := from;
    while i < |lines| && !Marked(lines[i], '|')
      invariant from <= i <= |lines|
      invariant SkipToPipe(lines, i) == SkipToPipe(lines, from)
      decreases |lines| - i
    {
      i := i + 1;
    }
  }

  /** The table: skips to the header line, checks it and the separator, then reads rows. */
  method ReadTable(lines: seq<string>, from: nat) returns (rows: seq<map<string, string>>)
    requires from <= |lines|
    ensures rows == TableOf(lines, from)
  {
    var i := SkipToHeader(lines, from);
    var headerLine := if i < |lines| then lines[i] else "";
    var separatorLine := if i + 1 < |lines| then lines[i + 1] else "";
    if TableStarts(headerLine, separatorLine) {
      var headers := Cells(headerLine);
      rows := ReadRows(lines, headers, i + 2);
    } else {
      rows := [];
    }
  }

  /** The date from the first title line: the text after its last "-", stripped. */
  method ReadDate(lines: seq<string>) returns (date: Option<string>)
    ensures date == DateOf(lines)
  {
    date := None;
    var titleIdx := FindFirst(lines, TitleLine);
    if titleIdx.Some? {
      var titleLine := lines[titleIdx.value];
      var idx := LastIndexOf(titleLine, '-');
      if idx.Some? {
        date := Some(Strip(titleLine[idx.value + 1..]));
      }
    }
  }

  /** The bullets under the first line with `heading`, or none without one. */
  method ReadSection(lines: seq<string>, heading: string) returns (entries: seq<Breakdown>)
    ensures entries == BreakdownSection(lines, heading)
  {
    entries := [];
    var idx := FindFirst(lines, SectionLine(heading));
    if idx.Some? {
      entries := ReadBreakdown(lines, idx.value + 1);
    }
  }

  /** parseMarkdownReport. */
  method ParseMarkdownReport(md: string) returns (r: Option<Report>)
    ensures r == ParseSpec(md)
  {
    if md == "" {
      return None;
    }
    var lines := Split(md, '\n');
    var date := ReadDate(lines);
    var summaryIdx := FindFirst(lines, SectionLine(SUMMARY_LABEL));
    var summary := map[];
    if summaryIdx.Some? {
      summary := ReadSummary(lines, summaryIdx.value + 1);
    }
    var byEvent := ReadSection(lines, EVENT_LABEL);
    var byRemediation := ReadSection(lines, REMEDIATION_LABEL);
    var incidentIdx := FindFirst(lines, DetailsLine);
    var incidents := [];
    if incidentIdx.Some? {
      incidents := ReadTable(lines, incidentIdx.value);
    }
    return Some(Report(date, summary, byEvent, byRemediation, incidents));
  }
}
