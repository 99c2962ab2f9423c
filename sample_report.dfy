/** The sample-report renderer (reports/generate_sample_report.py). Unlike the daily report it
    reads the attributes with `x[key]`, so a missing one raises KeyError; its success figure
    comes from each incident's own `success` flag; its breakdowns keep first-occurrence order;
    its rows keep input order with the message as it is; and it has no empty-input case. */
module SampleReport {
  import opened Wrappers
  import opened Strings
  import opened Counter
  import DailyReport

  /** An incident: its text attributes by name, and the truthiness of `x.get("success", False)`. */
  datatype SampleIncident = SampleIncident(fields: map<string, string>, success: bool)

  /** The three attributes a detail row reads besides the three the counts already read. */
  predicate RowReady(x: SampleIncident) {
    "created_at" in x.fields && "action" in x.fields && "message" in x.fields
  }

  /** The six attributes every incident must carry. */
  predicate Complete(x: SampleIncident) {
    && "instance_id" in x.fields && "event_type" in x.fields && "remediation_type" in x.fields
    && RowReady(x)
  }

  predicate AllHave(incidents: seq<SampleIncident>, key: string) {
    forall k :: 0 <= k < |incidents| ==> key in incidents[k].fields
  }

  /** The key named by the first failing lookup of the row loop: created_at, action or message
      of the first incident lacking one. */
  function RowMissing(incidents: seq<SampleIncident>): (r: Option<string>)
    ensures r.None? <==> forall k :: 0 <= k < |incidents| ==> RowReady(incidents[k])
  {
    if incidents == [] then None
    else
      var x := incidents[0];
      assert forall k :: 1 <= k < |incidents| ==> incidents[k] == incidents[1..][k - 1];
      if "created_at" !in x.fields then Some("created_at")
      else if "action" !in x.fields then Some("action")
      else if "message" !in x.fields then Some("message")
      else RowMissing(incidents[1..])
  }

  /** The first failing row of a concatenation is in its front part if there is one there. */
  lemma {:induction false} RowMissingAppend(a: seq<SampleIncident>, b: seq<SampleIncident>)
    ensures RowMissing(a + b) == if RowMissing(a).Some? then RowMissing(a) else RowMissing(b)
  {
    if a == [] {
      assert a + b == b;
    } else {
      assert (a + b)[0] == a[0];
      assert (a + b)[1..] == a[1..] + b;
      RowMissingAppend(a[1..], b);
    }
  }

  /** The key of the first KeyError in evaluation order, if any: the unique-instance set reads
      every instance_id, the two Counters every event_type and remediation_type, and then the
      rows are built one incident at a time. */
  function MissingKey(incidents: seq<SampleIncident>): (r: Option<string>)
    ensures r.None? <==> forall k :: 0 <= k < |incidents| ==> Complete(incidents[k])
  {
    if !AllHave(incidents, "instance_id") then Some("instance_id")
    else if !AllHave(incidents, "event_type") then Some("event_type")
    else if !AllHave(incidents, "remediation_type") then Some("remediation_type")
    else RowMissing(incidents)
  }

  /** Python's text for an uncaught `KeyError(key)`. */
  function KeyError(key: string): string {
    "KeyError: '" + key + "'"
  }

  /** `sum(1 for x in incidents if x.get("success", False))`. */
  function SuccessTotal(incidents: seq<SampleIncident>): (n: nat)
    ensures n <= |incidents|
  {
    if incidents == [] then 0 else (if incidents[0].success then 1 else 0) + SuccessTotal(incidents[1..])
  }

  /** No success exactly when no incident carries the flag; all succeed exactly when every
      incident does. */
  lemma {:induction false} SuccessTotalExtremes(incidents: seq<SampleIncident>)
    ensures SuccessTotal(incidents) == 0 <==> forall k :: 0 <= k < |incidents| ==> !incidents[k].success
    ensures SuccessTotal(incidents) == |incidents| <==>
      forall k :: 0 <= k < |incidents| ==> incidents[k].success
  {
    if incidents != [] {
      assert forall k :: 1 <= k < |incidents| ==> incidents[k] == incidents[1..][k - 1];
      SuccessTotalExtremes(incidents[1..]);
    }
  }

  /** `{x["instance_id"] for x in incidents}`: every id, truthy or not. */
  function IdSet(incidents: seq<SampleIncident>): (ids: set<string>)
    requires AllHave(incidents, "instance_id")
    ensures |ids| <= |incidents|
  {
    if incidents == [] then {}
    else
      assert forall k :: 1 <= k < |incidents| ==> incidents[k] == incidents[1..][k - 1];
      var rest := IdSet(incidents[1..]);
      DailyReport.UnionSize({incidents[0].fields["instance_id"]}, rest);
      {incidents[0].fields["instance_id"]} + rest
  }

  /** The set holds exactly the incidents' ids, empty ones included. */
  lemma {:induction false} IdSetMembers(incidents: seq<SampleIncident>)
    requires AllHave(incidents, "instance_id")
    ensures forall k :: 0 <= k < |incidents| ==> incidents[k].fields["instance_id"] in IdSet(incidents)
    ensures forall x :: x in IdSet(incidents) ==>
      exists k :: 0 <= k < |incidents| && incidents[k].fields["instance_id"] == x
  {
    if incidents != [] {
      assert forall k :: 1 <= k < |incidents| ==> incidents[k] == incidents[1..][k - 1];
      IdSetMembers(incidents[1..]);
    }
  }

  /** The incidents' values for `key`, in input order. */
  function Column(incidents: seq<SampleIncident>, key: string): (keys: seq<string>)
    requires AllHave(incidents, key)
    ensures |keys| == |incidents| && forall k :: 0 <= k < |incidents| ==> keys[k] == incidents[k].fields[key]
  {
    seq(|incidents|, k requires 0 <= k < |incidents| => incidents[k].fields[key])
  }

  /** `Counter(x[key] for x in incidents).items()`: one entry per value, its count, and the
      values in the order they first occur; the counts sum to the number of incidents. */
  lemma SampleBreakdown(incidents: seq<SampleIncident>, key: string)
    requires AllHave(incidents, key)
    ensures var keys := Column(incidents, key); var t := Tally(keys);
      && DistinctKeys(t) && Total(t) == |incidents|
      && CountsOccurrences(keys, t) && CoversKeys(keys, t) && InFirstOccurrenceOrder(keys, t)
  {
    var keys := Column(incidents, key);
    TallyCounts(keys);
    TallyCovers(keys);
    TallyInFirstOccurrenceOrder(keys);
  }

  /** One detail row: the six attributes as they are, the message included. */
  function SampleRow(x: SampleIncident): string
    requires Complete(x)
  {
    DailyReport.RowOf(x.fields["created_at"], x.fields["event_type"], x.fields["instance_id"],
                      x.fields["remediation_type"], x.fields["action"], x.fields["message"])
  }

  function SampleRows(incidents: seq<SampleIncident>): (rows: seq<string>)
    requires MissingKey(incidents).None?
    ensures |rows| == |incidents| && forall k :: 0 <= k < |incidents| ==> rows[k] == SampleRow(incidents[k])
  {
    seq(|incidents|, k requires 0 <= k < |incidents| => SampleRow(incidents[k]))
  }

  const SAMPLE_SEPARATOR := "|-------------------|-----------|-------------|------------------|--------|---------|"

  /** The title, the summary and both breakdowns. */
  function SampleHead(dateStr: string, incidents: seq<SampleIncident>): seq<string>
    requires AllHave(incidents, "instance_id") && AllHave(incidents, "event_type")
    requires AllHave(incidents, "remediation_type")
  {
    var total := |incidents|;
    var success := SuccessTotal(incidents);
    [DailyReport.Title(dateStr), ""]
    + DailyReport.SummaryBlock(total, success, total - success, |IdSet(incidents)|)
    + [DailyReport.EVENT_HEADING] + DailyReport.Bullets(Tally(Column(incidents, "event_type")))
    + ["", DailyReport.REMEDIATION_HEADING]
    + DailyReport.Bullets(Tally(Column(incidents, "remediation_type")))
  }

  /** The lines between the breakdowns and the rows. */
  const TABLE_START := ["", DailyReport.RULE, "", DailyReport.DETAILS_HEADING, "",
                        DailyReport.TABLE_HEADER, SAMPLE_SEPARATOR]

  /** The lines build_markdown_report joins with newlines. */
  function SampleLines(dateStr: string, incidents: seq<SampleIncident>): seq<string>
    requires MissingKey(incidents).None?
  {
    SampleHead(dateStr, incidents) + TABLE_START + SampleRows(incidents)
  }

  /** The specification of build_markdown_report: the report, or the KeyError of the first
      missing attribute. */
  function BuildSpec(dateStr: string, incidents: seq<SampleIncident>): (r: Result<string>)
    ensures r.Raised? <==> exists k :: 0 <= k < |incidents| && !Complete(incidents[k])
    ensures r.Raised? ==> exists key :: MissingKey(incidents) == Some(key) && r.error == KeyError(key)
  {
    match MissingKey(incidents)
    case Some(key) => Raised(KeyError(key))
    case None => Ok(Join(SampleLines(dateStr, incidents), '\n'))
  }

  /** A zero count renders as the digit 0. */
  lemma ZeroBullet(name: string)
    ensures DailyReport.Bullet(name, 0) == "- " + name + ": 0"
  {
    assert NatToString(0) == ['0'];
  }

  /** An empty list still gets the summary, with zeros, the two breakdown headings with no
      entries and the table header. */
  lemma EmptySampleReport(dateStr: string)
    ensures BuildSpec(dateStr, []) == Ok(Join(
      [DailyReport.Title(dateStr), ""] + DailyReport.SummaryBlock(0, 0, 0, 0)
      + [DailyReport.EVENT_HEADING, "", DailyReport.REMEDIATION_HEADING] + TABLE_START, '\n'))
  {
    var none: seq<SampleIncident> := [];
    assert Column(none, "event_type") == [] && Column(none, "remediation_type") == [];
    assert Tally([]) == [] && DailyReport.Bullets([]) == [];
    assert SampleRows(none) == [];
    assert MissingKey(none) == None;
    assert SuccessTotal(none) == 0 && IdSet(none) == {};
    assert SampleHead(dateStr, none) == [DailyReport.Title(dateStr), ""]
      + DailyReport.SummaryBlock(0, 0, 0, 0) + [DailyReport.EVENT_HEADING, "", DailyReport.REMEDIATION_HEADING];
    assert SampleLines(dateStr, none) == SampleHead(dateStr, none) + TABLE_START;
  }

  /** Otherwise the summary follows the title, its figures are the success flags' count, the
      rest of the total, and the number of distinct ids; the report ends with one row per
      incident in input order. */
  lemma SampleReportShape(dateStr: string, incidents: seq<SampleIncident>)
    requires MissingKey(incidents).None?
    ensures var lines := SampleLines(dateStr, incidents);
      && |lines| > 8 + |incidents|
      && lines[..8] == [DailyReport.TITLE_PREFIX + dateStr, ""] + DailyReport.SummaryBlock(|incidents|,
           SuccessTotal(incidents), |incidents| - SuccessTotal(incidents), |IdSet(incidents)|)
      && lines[|lines| - |incidents|..] == SampleRows(incidents)
      && BuildSpec(dateStr, incidents) == Ok(Join(lines, '\n'))
  {
    var head := SampleHead(dateStr, incidents);
    SampleHeadFront(dateStr, incidents);
    DailyReport.AppendAssoc(head, TABLE_START, SampleRows(incidents));
    DailyReport.TakeAppend(head, TABLE_START + SampleRows(incidents), 8);
    SuffixOfAppend(head + TABLE_START, SampleRows(incidents));
  }

  lemma SampleHeadFront(dateStr: string, incidents: seq<SampleIncident>)
    requires AllHave(incidents, "instance_id") && AllHave(incidents, "event_type")
    requires AllHave(incidents, "remediation_type")
    ensures |SampleHead(dateStr, incidents)| >= 8
    ensures SampleHead(dateStr, incidents)[..8] == [DailyReport.Title(dateStr), ""]
      + DailyReport.SummaryBlock(|incidents|, SuccessTotal(incidents),
                                 |incidents| - SuccessTotal(incidents), |IdSet(incidents)|)
  {
  }

  lemma SuffixOfAppend(a: seq<string>, b: seq<string>)
    ensures (a + b)[|a + b| - |b|..] == b
  {
  }

  lemma AllHavePrefix(incidents: seq<SampleIncident>, key: string, k: nat)
    requires AllHave(incidents, key) && k <= |incidents|
    ensures AllHave(incidents[..k], key)
  {
    assert forall j :: 0 <= j < k ==> incidents[..k][j] == incidents[j];
  }

  /** Rows that read fine so far, and one more incident that reads fine. */
  lemma ReadyStep(incidents: seq<SampleIncident>, k: nat)
    requires k < |incidents| && RowMissing(incidents[..k]).None? && RowReady(incidents[k])
    requires AllHave(incidents, "instance_id") && AllHave(incidents, "event_type")
    requires AllHave(incidents, "remediation_type")
    ensures RowMissing(incidents[..k + 1]).None? && MissingKey(incidents[..k + 1]).None?
  {
    RowMissingAppend(incidents[..k], [incidents[k]]);
    assert incidents[..k + 1] == incidents[..k] + [incidents[k]];
    AllHavePrefix(incidents, "instance_id", k + 1);
    AllHavePrefix(incidents, "event_type", k + 1);
    AllHavePrefix(incidents, "remediation_type", k + 1);
  }

  /** The first incident whose row does not read decides the KeyError. */
  lemma FirstUnready(incidents: seq<SampleIncident>, k: nat)
    requires k < |incidents| && RowMissing(incidents[..k]).None?
    ensures RowMissing(incidents) == RowMissing(incidents[k..])
    ensures incidents[k..][0] == incidents[k]
  {
    RowMissingAppend(incidents[..k], incidents[k..]);
    assert incidents[..k] + incidents[k..] == incidents;
  }

  lemma SampleRowsAppend(incidents: seq<SampleIncident>, k: nat)
    requires k < |incidents| && MissingKey(incidents[..k + 1]).None?
    ensures SampleRows(incidents[..k + 1]) == SampleRows(incidents[..k]) + [SampleRow(incidents[k])]
  {
    var front := incidents[..k + 1];
    assert forall j :: 0 <= j < k ==> incidents[..k][j] == front[j];
    assert front[k] == incidents[k];
    assert MissingKey(incidents[..k]).None?;
  }

  /** The row loop: appends one row per incident, in input order, or stops at the first
      missing attribute. */
  method AppendSampleRows(lines: seq<string>, incidents: seq<SampleIncident>)
    returns (r: Result<seq<string>>)
    requires AllHave(incidents, "instance_id") && AllHave(incidents, "event_type")
    requires AllHave(incidents, "remediation_type")
    ensures RowMissing(incidents).Some? ==> r == Raised(KeyError(RowMissing(incidents).value))
    ensures RowMissing(incidents).None? ==>
      (MissingKey(incidents).None? && r == Ok(lines + SampleRows(incidents)))
  {
    var out := lines;
    assert incidents[..0] == [];
    for k := 0 to |incidents|
      invariant RowMissing(incidents[..k]).None? && MissingKey(incidents[..k]).None?
      invariant out == lines + SampleRows(incidents[..k])
    {
      var x := incidents[k];
      if !("created_at" in x.fields && "action" in x.fields && "message" in x.fields) {
        FirstUnready(incidents, k);
        if "created_at" !in x.fields {
          return Raised(KeyError("created_at"));
        }
        if "action" !in x.fields {
          return Raised(KeyError("action"));
        }
        return Raised(KeyError("message"));
      }
      ReadyStep(incidents, k);
      SampleRowsAppend(incidents, k);
      out := out + [DailyReport.RowOf(x.fields["created_at"], x.fields["event_type"],
                                      x.fields["instance_id"], x.fields["remediation_type"],
                                      x.fields["action"], x.fields["message"])];
    }
    assert incidents[..|incidents|] == incidents;
    return Ok(out);
  }

  /** The title and the four summary bullets, appended one line at a time. */
  method AppendSummary(dateStr: string, total: nat, success: nat, failed: nat, uniqueInstances: nat)
    returns (lines: seq<string>)
    ensures lines == [DailyReport.Title(dateStr), ""]
      + DailyReport.SummaryBlock(total, success, failed, uniqueInstances)
  {
    lines := [];
    lines := lines + [DailyReport.Title(dateStr)];
    lines := lines + [""];
    lines := lines + [DailyReport.SUMMARY_HEADING];
    lines := lines + [DailyReport.Bullet("Total incidents", total)];
    lines := lines + [DailyReport.Bullet("Success (heuristic)", success)];
    lines := lines + [DailyReport.Bullet("Failed (heuristic)", failed)];
    lines := lines + [DailyReport.Bullet("Unique instances", uniqueInstances)];
    lines := lines + [""];
  }

  /** The counts and the lines up to the end of the breakdowns, once the three attributes they
      read are known to be present. */
  method AppendHead(dateStr: string, incidents: seq<SampleIncident>) returns (lines: seq<string>)
    requires AllHave(incidents, "instance_id") && AllHave(incidents, "event_type")
    requires AllHave(incidents, "remediation_type")
    ensures lines == SampleHead(dateStr, incidents)
  {
    var total := |incidents|;
    var success := SuccessTotal(incidents);
    var failed := total - success;
    var uniqueInstances := |IdSet(incidents)|;
    var byEvent := Tally(Column(incidents, "event_type"));
    var byRemediation := Tally(Column(incidents, "remediation_type"));

    lines := AppendSummary(dateStr, total, success, failed, uniqueInstances);
    lines := lines + [DailyReport.EVENT_HEADING];
    lines := DailyReport.AppendBullets(lines, byEvent);
    lines := lines + [""];
    lines := lines + [DailyReport.REMEDIATION_HEADING];
    lines := DailyReport.AppendBullets(lines, byRemediation);
  }

  /** build_markdown_report: the counts, then the lines appended one by one, with loops for
      the breakdowns and the rows, joined with newlines. */
  method BuildMarkdownReport(dateStr: string, incidents: seq<SampleIncident>) returns (r: Result<string>)
    ensures r == BuildSpec(dateStr, incidents)
  {
    if !AllHave(incidents, "instance_id") {
      return Raised(KeyError("instance_id"));
    }
    if !AllHave(incidents, "event_type") {
      return Raised(KeyError("event_type"));
    }
    if !AllHave(incidents, "remediation_type") {
      return Raised(KeyError("remediation_type"));
    }
    var lines := AppendHead(dateStr, incidents);
    ghost var head := lines;
    lines := lines + [""];
    lines := lines + [DailyReport.RULE];
    lines := lines + [""];
    lines := lines + [DailyReport.DETAILS_HEADING];
    lines := lines + [""];
    lines := lines + [DailyReport.TABLE_HEADER];
    lines := lines + [SAMPLE_SEPARATOR];
    DailyReport.AppendSeven(head, "", DailyReport.RULE, "", DailyReport.DETAILS_HEADING, "",
                            DailyReport.TABLE_HEADER, SAMPLE_SEPARATOR);
    assert lines == head + TABLE_START;

    var withRows := AppendSampleRows(lines, incidents);
    match withRows
    case Raised(e) =>
      return Raised(e);
    case Ok(all) =>
      DailyReport.AppendAssoc(head, TABLE_START, SampleRows(incidents));
      return Ok(Join(all, '\n'));
  }
}
