/** The daily report (src/reporting/daily_report.py): the paginated scan of one day's
    incidents and the Markdown summary rendered from them. An incident is its string
    attributes by name. */
module DailyReport {
  import opened Wrappers
  import opened Strings
  import opened Counter

  type Incident = map<string, string>

  /** `item.get(key, default)`. */
  function Attr(item: Incident, key: string, default: string): string {
    if key in item then item[key] else default
  }

  // ---- get_incidents_for_date ----

  /** One scan response: its "Items" (absent is None) and its "LastEvaluatedKey". */
  datatype Page = Page(items: Option<seq<Incident>>, lastEvaluatedKey: Option<string>)

  /** One scan request: the created_at prefix filtered on and the ExclusiveStartKey. */
  datatype ScanRequest = ScanRequest(createdAtPrefix: string, exclusiveStartKey: Option<string>)

  /** The page the table answers to its n-th scan: the given pages in order, then an empty
      final page. */
  function PageAt(pages: seq<Page>, n: nat): Page {
    if n < |pages| then pages[n] else Page(Some([]), None)
  }

  /** `response.get("Items", [])`. */
  function ItemsOf(p: Page): seq<Incident> {
    p.items.GetOr([])
  }

  /** Everything the scans from the n-th on collect: each page's items, continuing exactly
      while the page carries a LastEvaluatedKey. */
  function Collected(pages: seq<Page>, n: nat): seq<Incident>
    decreases if n < |pages| then |pages| - n else 0
  {
    var p := PageAt(pages, n);
    if p.lastEvaluatedKey.Some? then ItemsOf(p) + Collected(pages, n + 1) else ItemsOf(p)
  }

  /** The number of scans made from the n-th on. */
  function ScanCount(pages: seq<Page>, n: nat): (c: nat)
    ensures c >= 1
    decreases if n < |pages| then |pages| - n else 0
  {
    if PageAt(pages, n).lastEvaluatedKey.Some? then 1 + ScanCount(pages, n + 1) else 1
  }

  /** The items of pages n..m-1 in order. */
  function Concat(pages: seq<Page>, n: nat, m: nat): seq<Incident>
    requires n <= m
    decreases m - n
  {
    if n == m then [] else ItemsOf(PageAt(pages, n)) + Concat(pages, n + 1, m)
  }

  /** The collected list is the concatenation, in page order, of the items of every page up to
      and including the first one without a LastEvaluatedKey. */
  lemma {:induction false} CollectedIsConcat(pages: seq<Page>, n: nat, m: nat)
    requires n <= m
    requires forall k :: n <= k < m ==> PageAt(pages, k).lastEvaluatedKey.Some?
    requires PageAt(pages, m).lastEvaluatedKey.None?
    ensures Collected(pages, n) == Concat(pages, n, m + 1)
    ensures ScanCount(pages, n) == m - n + 1
    decreases m - n
  {
    if n < m {
      CollectedIsConcat(pages, n + 1, m);
    }
  }

  /** The incident table as the scans see it: a fixed sequence of answers, and the log of the
      requests made. */
  class IncidentScan {
    const pages: seq<Page>
    var requests: seq<ScanRequest>

    constructor (pages: seq<Page>)
      ensures this.pages == pages && requests == []
    {
      this.pages := pages;
      requests := [];
    }

    /** `table.scan(...)`: log the request and answer the next page. */
    method Scan(request: ScanRequest) returns (p: Page)
      modifies this
      ensures requests == old(requests) + [request]
      ensures p == PageAt(pages, |old(requests)|)
    {
      p := PageAt(pages, |requests|);
      requests := requests + [request];
    }
  }

  /** One unfolding of Collected and ScanCount. */
  lemma CollectedStep(pages: seq<Page>, n: nat)
    ensures Collected(pages, n) == ItemsOf(PageAt(pages, n)) +
      (if PageAt(pages, n).lastEvaluatedKey.Some? then Collected(pages, n + 1) else [])
    ensures ScanCount(pages, n) == 1 +
      (if PageAt(pages, n).lastEvaluatedKey.Some? then ScanCount(pages, n + 1) else 0)
  {
  }

  /** get_incidents_for_date: scan, then scan again from the LastEvaluatedKey while there is
      one, extending the list with each page's items. */
  method GetIncidentsForDate(table: IncidentScan, dateStr: string) returns (items: seq<Incident>)
    modifies table
    ensures items == Collected(table.pages, |old(table.requests)|)
    ensures |table.requests| == |old(table.requests)| + ScanCount(table.pages, |old(table.requests)|)
    ensures table.requests[..|old(table.requests)|] == old(table.requests)
    ensures forall k :: |old(table.requests)| <= k < |table.requests| ==>
      table.requests[k].createdAtPrefix == dateStr
    ensures forall k :: |old(table.requests)| < k < |table.requests| ==>
      table.requests[k].exclusiveStartKey == PageAt(table.pages, k - 1).lastEvaluatedKey
  {
    ghost var start := |table.requests|;
    ghost var pages := table.pages;
    var response := table.Scan(ScanRequest(dateStr, None));
    items := ItemsOf(response);
    ghost var n := start + 1;
    CollectedStep(pages, start);
    while response.lastEvaluatedKey.Some?
      invariant n == |table.requests| && start < n && pages == table.pages
      invariant response == PageAt(pages, n - 1)
      invariant table.requests[..start] == old(table.requests)
      invariant response.lastEvaluatedKey.Some? ==> Collected(pages, start) == items + Collected(pages, n)
      invariant response.lastEvaluatedKey.None? ==> Collected(pages, start) == items
      invariant response.lastEvaluatedKey.Some? ==> ScanCount(pages, start) == n - start + ScanCount(pages, n)
      invariant response.lastEvaluatedKey.None? ==> ScanCount(pages, start) == n - start
      invariant forall k :: start <= k < n ==> table.requests[k].createdAtPrefix == dateStr
      invariant forall k :: start < k < n ==>
        table.requests[k].exclusiveStartKey == PageAt(pages, k - 1).lastEvaluatedKey
      decreases if n <= |pages| then |pages| + 1 - n else 0
    {
      CollectedStep(pages, n);
      response := table.Scan(ScanRequest(dateStr, response.lastEvaluatedKey));
      items := items + ItemsOf(response);
      n := n + 1;
    }
  }

  // ---- the counts of generate_markdown ----

  /** The failure heuristic: "FAILED" occurs in the uppercased action followed by the message. */
  predicate LooksFailed(item: Incident) {
    Contains(Upper(Attr(item, "action", "") + Attr(item, "message", "")), "FAILED")
  }

  /** failed_count: the incidents the heuristic calls failed. */
  function FailedCount(incidents: seq<Incident>): (n: nat)
    ensures n <= |incidents|
  {
    if incidents == [] then 0
    else (if LooksFailed(incidents[0]) then 1 else 0) + FailedCount(incidents[1..])
  }

  /** No failure is counted exactly when no incident looks failed, and all are counted exactly
      when every incident does. */
  lemma {:induction false} FailedCountExtremes(incidents: seq<Incident>)
    ensures FailedCount(incidents) == 0 <==> forall k :: 0 <= k < |incidents| ==> !LooksFailed(incidents[k])
    ensures FailedCount(incidents) == |incidents| <==>
      forall k :: 0 <= k < |incidents| ==> LooksFailed(incidents[k])
  {
    if incidents != [] {
      FailedCountExtremes(incidents[1..]);
      assert forall k :: 1 <= k < |incidents| ==> incidents[k] == incidents[1..][k - 1];
    }
  }

  /** success_count = total - failed_count, so the two always add up to the total. */
  function SuccessCount(incidents: seq<Incident>): (n: nat)
    ensures n + FailedCount(incidents) == |incidents|
  {
    |incidents| - FailedCount(incidents)
  }

  /** An incident with a truthy (present, non-empty) instance_id. */
  predicate HasInstanceId(item: Incident) {
    Attr(item, "instance_id", "") != ""
  }

  /** The set of truthy instance ids. */
  function InstanceIds(incidents: seq<Incident>): (ids: set<string>)
    ensures |ids| <= |incidents|
  {
    if incidents == [] then {}
    else
      var rest := InstanceIds(incidents[1..]);
      var here: set<string> := if HasInstanceId(incidents[0]) then {incidents[0]["instance_id"]} else {};
      UnionSize(here, rest);
      here + rest
  }

  /** The set holds exactly the truthy instance ids of the incidents. */
  lemma {:induction false} InstanceIdsMembers(incidents: seq<Incident>)
    ensures forall k :: 0 <= k < |incidents| && HasInstanceId(incidents[k]) ==>
      incidents[k]["instance_id"] in InstanceIds(incidents)
    ensures forall x :: x in InstanceIds(incidents) ==>
      exists k :: 0 <= k < |incidents| && HasInstanceId(incidents[k]) && incidents[k]["instance_id"] == x
  {
    if incidents != [] {
      InstanceIdsMembers(incidents[1..]);
      assert forall k :: 1 <= k < |incidents| ==> incidents[k] == incidents[1..][k - 1];
    }
  }

  lemma UnionSize(a: set<string>, b: set<string>)
    ensures |a + b| <= |a| + |b|
  {
    assert |a + b| == |a| + |b| - |a * b|;
  }

  /** unique_instances. */
  function UniqueInstances(incidents: seq<Incident>): (n: nat)
    ensures n <= |incidents|
  {
    |InstanceIds(incidents)|
  }

  /** The incidents' values for `key`, "UNKNOWN" where it is missing. */
  function Column(incidents: seq<Incident>, key: string): (keys: seq<string>)
    ensures |keys| == |incidents|
    ensures forall k :: 0 <= k < |incidents| ==> keys[k] == Attr(incidents[k], key, "UNKNOWN")
  {
    seq(|incidents|, k requires 0 <= k < |incidents| => Attr(incidents[k], key, "UNKNOWN"))
  }

  /** `Counter(event_type).most_common()`. */
  function ByEventType(incidents: seq<Incident>): seq<Entry> {
    MostCommon(Tally(Column(incidents, "event_type")))
  }

  /** `Counter(remediation_type).most_common()`. */
  function ByRemediationType(incidents: seq<Incident>): seq<Entry> {
    MostCommon(Tally(Column(incidents, "remediation_type")))
  }

  /** Both breakdowns add up to the total and are listed in non-increasing count order, with one
      entry per distinct value. */
  lemma BreakdownsSumToTotal(incidents: seq<Incident>)
    ensures Total(ByEventType(incidents)) == |incidents| && NonIncreasing(ByEventType(incidents))
    ensures Total(ByRemediationType(incidents)) == |incidents| && NonIncreasing(ByRemediationType(incidents))
    ensures multiset(ByEventType(incidents)) == multiset(Tally(Column(incidents, "event_type")))
    ensures multiset(ByRemediationType(incidents)) ==
      multiset(Tally(Column(incidents, "remediation_type")))
  {
  }

  // ---- the detail table ----

  /** Python's `<=` on str: lexicographic by code point. */
  predicate LexLe(a: string, b: string) {
    if a == [] then true
    else if b == [] then false
    else if a[0] != b[0] then a[0] < b[0]
    else LexLe(a[1..], b[1..])
  }

  lemma {:induction false} LexTotal(a: string, b: string)
    ensures LexLe(a, b) || LexLe(b, a)
  {
    if a != [] && b != [] && a[0] == b[0] {
      LexTotal(a[1..], b[1..]);
    }
  }

  lemma {:induction false} LexReflexive(a: string)
    ensures LexLe(a, a)
  {
    if a != [] {
      LexReflexive(a[1..]);
    }
  }

  /** `_sort_key`: the created_at attribute, "" when it is missing. */
  function SortKey(item: Incident): string {
    Attr(item, "created_at", "")
  }

  predicate SortedByCreated(s: seq<Incident>) {
    forall k :: 0 <= k < |s| - 1 ==> LexLe(SortKey(s[k]), SortKey(s[k + 1]))
  }

  /** Places `x` before the first incident whose key is not below its own. */
  function InsertByCreated(x: Incident, s: seq<Incident>): (r: seq<Incident>)
    ensures multiset(r) == multiset(s) + multiset{x} && |r| == |s| + 1
    ensures r[0] == x || (s != [] && r[0] == s[0])
  {
    if s == [] || LexLe(SortKey(x), SortKey(s[0])) then [x] + s
    else
      assert s == [s[0]] + s[1..];
      [s[0]] + InsertByCreated(x, s[1..])
  }

  lemma {:induction false} InsertKeepsSorted(x: Incident, s: seq<Incident>)
    requires SortedByCreated(s)
    ensures SortedByCreated(InsertByCreated(x, s))
  {
    if s != [] && !LexLe(SortKey(x), SortKey(s[0])) {
      InsertKeepsSorted(x, s[1..]);
      LexTotal(SortKey(x), SortKey(s[0]));
      if |s| > 1 {
        assert SortKey(s[0]) == SortKey(s[0]);
      }
    }
  }

  /** `sorted(incidents, key=_sort_key)`: a stable sort by created_at. */
  function SortByCreated(s: seq<Incident>): (r: seq<Incident>)
    ensures multiset(r) == multiset(s) && |r| == |s|
    ensures SortedByCreated(r)
  {
    if s == [] then []
    else
      var rest := SortByCreated(s[1..]);
      assert s == [s[0]] + s[1..];
      InsertKeepsSorted(s[0], rest);
      InsertByCreated(s[0], rest)
  }

  /** The message cell: newlines become spaces, and a text over 80 characters is cut to its
      first 77 followed by "...". */
  function MessageCell(message: string): (c: string)
    ensures '\n' !in c && |c| <= 80
    ensures |message| <= 80 ==> c == ReplaceChar(message, '\n', ' ')
    ensures |message| > 80 ==>
      |c| == 80 && c[77..] == "..." && c[..77] == ReplaceChar(message, '\n', ' ')[..77]
  {
    var m := ReplaceChar(message, '\n', ' ');
    if |m| > 80 then m[..77] + "..." else m
  }

  /** `| {created_at} | {event_type} | ... | {message} |`. */
  function RowOf(createdAt: string, eventType: string, instanceId: string, remediationType: string,
                 action: string, message: string): string {
    "| " + createdAt + " | " + eventType + " | " + instanceId + " | " + remediationType + " | "
    + action + " | " + message + " |"
  }

  /** One row of the detail table. */
  function Row(item: Incident): string {
    RowOf(Attr(item, "created_at", "-"), Attr(item, "event_type", "-"), Attr(item, "instance_id", "-"),
          Attr(item, "remediation_type", "-"), Attr(item, "action", "-"),
          MessageCell(Attr(item, "message", "")))
  }

  function Rows(s: seq<Incident>): (rows: seq<string>)
    ensures |rows| == |s| && forall k :: 0 <= k < |s| ==> rows[k] == Row(s[k])
  {
    seq(|s|, k requires 0 <= k < |s| => Row(s[k]))
  }

  lemma RowsAppend(s: seq<Incident>, k: nat)
    requires k < |s|
    ensures Rows(s[..k + 1]) == Rows(s[..k]) + [Row(s[k])]
  {
    assert s[..k + 1][k] == s[k];
  }

  // ---- generate_markdown ----

  const NO_INCIDENTS := "No incidents recorded for this date."
  const SUMMARY_HEADING := "**Summary**"
  const EVENT_HEADING := "**By event type**"
  const REMEDIATION_HEADING := "**By remediation type**"
  const RULE := "---"
  const DETAILS_HEADING := "## Incident Details"
  const TABLE_HEADER := "| Time (created_at) | Event Type | Instance ID | Remediation Type | Action | Message |"
  const TABLE_SEPARATOR := "|-------------------|------------|-------------|------------------|--------|---------|"
  const TITLE_PREFIX := "# Daily Cloud Incident Report - "

  function Title(dateStr: string): string {
    TITLE_PREFIX + dateStr
  }

  /** `- {name}: {count}`. */
  function Bullet(name: string, count: nat): string {
    "- " + name + ": " + NatToString(count)
  }

  /** One bullet per entry. */
  function Bullets(entries: seq<Entry>): (lines: seq<string>)
    ensures |lines| == |entries|
    ensures forall k :: 0 <= k < |entries| ==> lines[k] == Bullet(entries[k].0, entries[k].1)
  {
    seq(|entries|, k requires 0 <= k < |entries| => Bullet(entries[k].0, entries[k].1))
  }

  lemma BulletsAppend(entries: seq<Entry>, k: nat)
    requires k < |entries|
    ensures Bullets(entries[..k + 1]) == Bullets(entries[..k]) + [Bullet(entries[k].0, entries[k].1)]
  {
    assert entries[..k + 1][k] == entries[k];
  }

  /** The summary block with the four figures, its blank line included. */
  function SummaryBlock(total: nat, success: nat, failed: nat, unique: nat): seq<string> {
    [ SUMMARY_HEADING,
      Bullet("Total incidents", total),
      Bullet("Success (heuristic)", success),
      Bullet("Failed (heuristic)", failed),
      Bullet("Unique instances", unique),
      "" ]
  }

  /** The daily report's summary block. */
  function SummaryLines(incidents: seq<Incident>): seq<string> {
    SummaryBlock(|incidents|, SuccessCount(incidents), FailedCount(incidents), UniqueInstances(incidents))
  }

  /** The title, the summary and the event-type breakdown. */
  function UpperPart(dateStr: string, incidents: seq<Incident>): seq<string> {
    [Title(dateStr), ""] + SummaryLines(incidents) + [EVENT_HEADING] + Bullets(ByEventType(incidents))
  }

  /** The remediation-type breakdown and the table heading. */
  function MiddlePart(incidents: seq<Incident>): seq<string> {
    ["", REMEDIATION_HEADING] + Bullets(ByRemediationType(incidents))
    + ["", RULE, "", DETAILS_HEADING, "", TABLE_HEADER, TABLE_SEPARATOR]
  }

  /** The lines generate_markdown joins with newlines. */
  function ReportLines(dateStr: string, incidents: seq<Incident>): seq<string> {
    if incidents == [] then [Title(dateStr), "", NO_INCIDENTS]
    else UpperPart(dateStr, incidents) + MiddlePart(incidents) + Rows(SortByCreated(incidents))
  }

  /** The first line is always the title. */
  lemma ReportTitle(dateStr: string, incidents: seq<Incident>)
    ensures |ReportLines(dateStr, incidents)| >= 3
    ensures ReportLines(dateStr, incidents)[0] == "# Daily Cloud Incident Report - " + dateStr
  {
    if incidents != [] {
      var upper := UpperPart(dateStr, incidents);
      assert (upper + MiddlePart(incidents) + Rows(SortByCreated(incidents)))[0] == upper[0];
    }
  }

  /** With no incidents the report is the title, a blank line and the notice. */
  lemma EmptyReport(dateStr: string)
    ensures Join(ReportLines(dateStr, []), '\n') == Title(dateStr) + "\n\n" + NO_INCIDENTS
  {
    var lines := ReportLines(dateStr, []);
    assert lines[1..][1..] == [NO_INCIDENTS];
    assert Join(lines[1..], '\n') == "\n" + NO_INCIDENTS;
  }

  lemma TakeAppend(a: seq<string>, b: seq<string>, n: nat)
    requires n <= |a|
    ensures (a + b)[..n] == a[..n]
  {
  }

  /** Otherwise the summary comes first, right after the title and a blank line. */
  lemma ReportHead(dateStr: string, incidents: seq<Incident>)
    requires incidents != []
    ensures |ReportLines(dateStr, incidents)| > 8
    ensures ReportLines(dateStr, incidents)[..8] == [TITLE_PREFIX + dateStr, ""]
      + SummaryBlock(|incidents|, SuccessCount(incidents), FailedCount(incidents), UniqueInstances(incidents))
  {
    var head := [Title(dateStr), ""] + SummaryLines(incidents);
    var upper := UpperPart(dateStr, incidents);
    var tail := [EVENT_HEADING] + Bullets(ByEventType(incidents));
    AppendAssoc(head, [EVENT_HEADING], Bullets(ByEventType(incidents)));
    assert upper == head + tail;
    TakeAppend(head, tail, 8);
    assert head[..8] == head;
    var rest := MiddlePart(incidents) + Rows(SortByCreated(incidents));
    AppendAssoc(upper, MiddlePart(incidents), Rows(SortByCreated(incidents)));
    TakeAppend(upper, rest, 8);
  }

  /** ... and the report ends with the table header, its separator and one row per incident,
      in created_at order. */
  lemma ReportTable(dateStr: string, incidents: seq<Incident>)
    requires incidents != []
    ensures var lines := ReportLines(dateStr, incidents);
      var n := |lines| - |incidents|;
      && |lines| == 18 + |ByEventType(incidents)| + |ByRemediationType(incidents)| + |incidents|
      && lines[n - 2] == TABLE_HEADER && lines[n - 1] == TABLE_SEPARATOR
      && lines[n..] == Rows(SortByCreated(incidents))
  {
    var front := UpperPart(dateStr, incidents) + MiddlePart(incidents);
    var rows := Rows(SortByCreated(incidents));
    var middle := MiddlePart(incidents);
    assert |middle| == 9 + |ByRemediationType(incidents)|;
    assert (front + rows)[|front|..] == rows;
    assert front[|front| - 2] == middle[|middle| - 2];
    assert front[|front| - 1] == middle[|middle| - 1];
  }

  /** The detail table lists every incident once, each row built from one incident, in
      ascending created_at order. */
  lemma DetailRowsArePermutationSorted(incidents: seq<Incident>)
    ensures var sorted := SortByCreated(incidents);
      && multiset(sorted) == multiset(incidents)
      && SortedByCreated(sorted)
      && Rows(sorted) == seq(|sorted|, k requires 0 <= k < |sorted| => Row(sorted[k]))
  {
  }

  lemma AppendAssoc(a: seq<string>, b: seq<string>, c: seq<string>)
    ensures a + b + c == a + (b + c)
  {
  }

  lemma AppendTwo(u: seq<string>, x: string, y: string, b: seq<string>)
    ensures u + [x] + [y] + b == u + ([x, y] + b)
  {
  }

  lemma AppendSeven(u: seq<string>, x1: string, x2: string, x3: string, x4: string, x5: string,
                    x6: string, x7: string)
    ensures u + [x1] + [x2] + [x3] + [x4] + [x5] + [x6] + [x7] == u + [x1, x2, x3, x4, x5, x6, x7]
  {
  }

  /** The loop appending one bullet per breakdown entry. */
  method AppendBullets(lines: seq<string>, entries: seq<Entry>) returns (out: seq<string>)
    ensures out == lines + Bullets(entries)
  {
    out := lines;
    for k := 0 to |entries|
      invariant out == lines + Bullets(entries[..k])
    {
      BulletsAppend(entries, k);
      out := out + [Bullet(entries[k].0, entries[k].1)];
    }
    assert entries[..|entries|] == entries;
  }

  /** The loop appending one table row per incident, with the message cleaned and cut. */
  method AppendRows(lines: seq<string>, sorted: seq<Incident>) returns (out: seq<string>)
    ensures out == lines + Rows(sorted)
  {
    out := lines;
    for k := 0 to |sorted|
      invariant out == lines + Rows(sorted[..k])
    {
      var item := sorted[k];
      var createdAt := Attr(item, "created_at", "-");
      var eventType := Attr(item, "event_type", "-");
      var instanceId := Attr(item, "instance_id", "-");
      var remediationType := Attr(item, "remediation_type", "-");
      var action := Attr(item, "action", "-");
      var message := ReplaceChar(Attr(item, "message", ""), '\n', ' ');
      if |message| > 80 {
        message := message[..77] + "...";
      }
      assert message == MessageCell(Attr(item, "message", ""));
      RowsAppend(sorted, k);
      out := out + [RowOf(createdAt, eventType, instanceId, remediationType, action, message)];
    }
    assert sorted[..|sorted|] == sorted;
  }

  /** generate_markdown: builds the lines by appending, with loops for the breakdowns and the
      table, and joins them with newlines. */
  method GenerateMarkdown(dateStr: string, incidents: seq<Incident>) returns (md: string)
    ensures md == Join(ReportLines(dateStr, incidents), '\n')
  {
    var lines: seq<string> := [];
    lines := lines + [Title(dateStr)];
    lines := lines + [""];
    if incidents == [] {
      lines := lines + [NO_INCIDENTS];
      assert lines == ReportLines(dateStr, incidents);
      return Join(lines, '\n');
    }
    var total := |incidents|;
    var failedCount := FailedCount(incidents);
    var successCount := total - failedCount;
    var uniqueInstances := UniqueInstances(incidents);

    lines := lines + [SUMMARY_HEADING];
    lines := lines + [Bullet("Total incidents", total)];
    lines := lines + [Bullet("Success (heuristic)", successCount)];
    lines := lines + [Bullet("Failed (heuristic)", failedCount)];
    lines := lines + [Bullet("Unique instances", uniqueInstances)];
    lines := lines + [""];
    assert lines == [Title(dateStr), ""] + SummaryLines(incidents);

    var byEventType := ByEventType(incidents);
    lines := lines + [EVENT_HEADING];
    lines := AppendBullets(lines, byEventType);
    ghost var upper := lines;
    assert upper == UpperPart(dateStr, incidents);

    lines := lines + [""];
    lines := lines + [REMEDIATION_HEADING];
    var byRemediationType := ByRemediationType(incidents);
    lines := AppendBullets(lines, byRemediationType);
    ghost var breakdown := ["", REMEDIATION_HEADING] + Bullets(byRemediationType);
    AppendTwo(upper, "", REMEDIATION_HEADING, Bullets(byRemediationType));
    ghost var withBreakdown := lines;
    lines := lines + [""];
    lines := lines + [RULE];
    lines := lines + [""];
    lines := lines + [DETAILS_HEADING];
    lines := lines + [""];
    lines := lines + [TABLE_HEADER];
    lines := lines + [TABLE_SEPARATOR];
    AppendSeven(withBreakdown, "", RULE, "", DETAILS_HEADING, "", TABLE_HEADER, TABLE_SEPARATOR);
    AppendAssoc(upper, breakdown, ["", RULE, "", DETAILS_HEADING, "", TABLE_HEADER, TABLE_SEPARATOR]);
    assert lines == upper + MiddlePart(incidents);

    var sorted := SortByCreated(incidents);
    lines := AppendRows(lines, sorted);
    return Join(lines, '\n');
  }
}
