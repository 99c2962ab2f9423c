/** What the dashboard reads back from the reports the back end writes: the summary figures
    of the daily report (reporting/daily_report.py) and of the sample report
    (reports/generate_sample_report.py), and the date of a title, as parseMarkdownReport in
    dashboard/app.js reads them. */
module RoundTrip {
  import opened Wrappers
  import opened Strings
  import opened Dashboard
  import opened ParserReadBack
  import DailyReport
  import SampleReport

  /** The summary object the dashboard builds from the four rendered figures. */
  function ExpectedSummary(total: nat, success: nat, failed: nat, unique: nat): map<string, SummaryValue> {
    map["total incidents" := Num(total), "success (heuristic)" := Num(success),
        "failed (heuristic)" := Num(failed), "unique instances" := Num(unique)]
  }

  lemma LowerTotal()
    ensures CleanName("Total incidents") && Lower("Total incidents") == "total incidents"
  {
    var name, lowered := "Total incidents", "total incidents";
    LowerShape(name);
    assert forall i :: 0 <= i < |name| ==> Lower(name)[i] == lowered[i];
  }

  lemma LowerSuccess()
    ensures CleanName("Success (heuristic)") && Lower("Success (heuristic)") == "success (heuristic)"
  {
    var name, lowered := "Success (heuristic)", "success (heuristic)";
    LowerShape(name);
    assert forall i :: 0 <= i < |name| ==> Lower(name)[i] == lowered[i];
  }

  lemma LowerFailed()
    ensures CleanName("Failed (heuristic)") && Lower("Failed (heuristic)") == "failed (heuristic)"
  {
    var name, lowered := "Failed (heuristic)", "failed (heuristic)";
    LowerShape(name);
    assert forall i :: 0 <= i < |name| ==> Lower(name)[i] == lowered[i];
  }

  lemma LowerUnique()
    ensures CleanName("Unique instances") && Lower("Unique instances") == "unique instances"
  {
    var name, lowered := "Unique instances", "unique instances";
    LowerShape(name);
    assert forall i :: 0 <= i < |name| ==> Lower(name)[i] == lowered[i];
  }

  /** The summary heading is the third line: the title and the blank line before it do not
      match it. */
  lemma SummaryHeadingFound(lines: seq<string>, d: string)
    requires |lines| >= 3 && lines[0] == DailyReport.TITLE_PREFIX + d && lines[1] == ""
    requires lines[2] == DailyReport.SUMMARY_HEADING
    ensures FindFirst(lines, SectionLine(SUMMARY_LABEL)) == Some(2)
  {
    var test := SectionLine(SUMMARY_LABEL);
    StripKeepsFirst(lines[0]);
    LowerShape(Strip(lines[0]));
    LowerShape(SUMMARY_LABEL);
    assert !Matches(test, lines[0]);
    StripUnchanged(lines[1]);
    assert !Matches(test, lines[1]);
    StripUnchanged(lines[2]);
    assert Matches(test, lines[2]);
    assert FindFrom(lines, test, 2) == Some(2);
    assert FindFrom(lines, test, 1) == Some(2);
  }

  /** The lines a report opens with, one by one: the title, a blank line, the summary
      heading, the four figures and a blank line. */
  predicate OpensWithSummary(lines: seq<string>, d: string, a: nat, b: nat, c: nat, e: nat) {
    && |lines| >= 8
    && lines[0] == DailyReport.TITLE_PREFIX + d && lines[1] == "" && lines[2] == DailyReport.SUMMARY_HEADING
    && lines[3] == DailyReport.Bullet("Total incidents", a)
    && lines[4] == DailyReport.Bullet("Success (heuristic)", b)
    && lines[5] == DailyReport.Bullet("Failed (heuristic)", c)
    && lines[6] == DailyReport.Bullet("Unique instances", e)
    && lines[7] == ""
  }

  lemma OpensWithSummaryAt(lines: seq<string>, d: string, a: nat, b: nat, c: nat, e: nat)
    requires |lines| >= 8
    requires lines[..8] == [DailyReport.TITLE_PREFIX + d, ""] + DailyReport.SummaryBlock(a, b, c, e)
    ensures OpensWithSummary(lines, d, a, b, c, e)
  {
    var head := lines[..8];
    assert lines[0] == head[0] && lines[1] == head[1] && lines[2] == head[2] && lines[3] == head[3];
    assert lines[4] == head[4] && lines[5] == head[5] && lines[6] == head[6] && lines[7] == head[7];
  }

  /** One rendered bullet with a clean name extends the summary read so far by its figure. */
  lemma BulletLineStep(lines: seq<string>, i: nat, name: string, n: nat)
    requires 3 <= i < |lines| && CleanName(name) && lines[i] == "- " + name + ": " + NatToString(n)
    ensures Marked(lines[i], '-')
    ensures SummaryOf(lines, 3, i + 1) == SummaryOf(lines, 3, i)[Lower(name) := Num(n)]
  {
    SummaryBulletReads(SummaryOf(lines, 3, i), name, n);
    SummaryOfNext(lines, 3, i);
  }

  /** Four bullets with clean names, ended by a blank line, set their lowered names. */
  lemma FourBulletsRead(lines: seq<string>, n3: string, n4: string, n5: string, n6: string,
                        a: nat, b: nat, c: nat, e: nat)
    requires |lines| >= 8 && lines[7] == ""
    requires CleanName(n3) && lines[3] == "- " + n3 + ": " + NatToString(a)
    requires CleanName(n4) && lines[4] == "- " + n4 + ": " + NatToString(b)
    requires CleanName(n5) && lines[5] == "- " + n5 + ": " + NatToString(c)
    requires CleanName(n6) && lines[6] == "- " + n6 + ": " + NatToString(e)
    ensures RunEnd(lines, 3, '-') == 7
    ensures SummaryOf(lines, 3, 7) ==
      map[Lower(n3) := Num(a), Lower(n4) := Num(b), Lower(n5) := Num(c), Lower(n6) := Num(e)]
  {
    BulletLineStep(lines, 3, n3, a);
    BulletLineStep(lines, 4, n4, b);
    BulletLineStep(lines, 5, n5, c);
    BulletLineStep(lines, 6, n6, e);
    StripUnchanged(lines[7]);
    assert RunEnd(lines, 7, '-') == 7;
    assert RunEnd(lines, 6, '-') == 7;
    assert RunEnd(lines, 5, '-') == 7;
    assert RunEnd(lines, 4, '-') == 7;
  }

  /** The four summary bullets, ended by the blank line, are read as the four figures. */
  lemma SummaryBulletsRead(lines: seq<string>, d: string, a: nat, b: nat, c: nat, e: nat)
    requires OpensWithSummary(lines, d, a, b, c, e)
    ensures RunEnd(lines, 3, '-') == 7
    ensures SummaryOf(lines, 3, 7) == ExpectedSummary(a, b, c, e)
  {
    LowerTotal();
    LowerSuccess();
    LowerFailed();
    LowerUnique();
    FourBulletsRead(lines, "Total incidents", "Success (heuristic)", "Failed (heuristic)",
      "Unique instances", a, b, c, e);
  }

  /** Lines that open with the title, a blank line and the summary block read back as the
      summary's four figures. */
  lemma ParsedSummary(lines: seq<string>, d: string, a: nat, b: nat, c: nat, e: nat)
    requires |lines| >= 8
    requires lines[..8] == [DailyReport.TITLE_PREFIX + d, ""] + DailyReport.SummaryBlock(a, b, c, e)
    ensures SummarySection(lines) == ExpectedSummary(a, b, c, e)
  {
    OpensWithSummaryAt(lines, d, a, b, c, e);
    SummaryHeadingFound(lines, d);
    SummaryBulletsRead(lines, d, a, b, c, e);
  }

  lemma NoNewlineBullet(lines: seq<string>, i: nat, name: string, n: nat)
    requires i < |lines| && lines[i] == DailyReport.Bullet(name, n) && '\n' !in name
    ensures '\n' !in lines[i]
  {
    var digits := NatToString(n);
    assert lines[i] == "- " + name + ": " + digits;
    assert forall j :: 0 <= j < |digits| ==> digits[j] != '\n';
  }

  /** The first eight lines of a report hold no newline when its date holds none. */
  lemma HeadHasNoNewline(lines: seq<string>, d: string, a: nat, b: nat, c: nat, e: nat)
    requires OpensWithSummary(lines, d, a, b, c, e) && '\n' !in d
    ensures forall k :: 0 <= k < 8 ==> '\n' !in lines[k]
  {
    forall k | 0 <= k < 8
      ensures '\n' !in lines[k]
    {
      if k == 0 {
        assert lines[0] == DailyReport.TITLE_PREFIX + d;
      } else if k == 3 {
        NoNewlineBullet(lines, 3, "Total incidents", a);
      } else if k == 4 {
        NoNewlineBullet(lines, 4, "Success (heuristic)", b);
      } else if k == 5 {
        NoNewlineBullet(lines, 5, "Failed (heuristic)", c);
      } else if k == 6 {
        NoNewlineBullet(lines, 6, "Unique instances", e);
      }
    }
  }

  /** Splitting a report whose first eight lines hold no newline gives those lines back. */
  lemma SplitReport(lines: seq<string>)
    requires |lines| > 8 && lines[0] != "" && forall k :: 0 <= k < 8 ==> '\n' !in lines[k]
    ensures var parsed := Split(Join(lines, '\n'), '\n');
      |parsed| > 8 && parsed[..8] == lines[..8]
    ensures Join(lines, '\n') != ""
  {
    var front, back := lines[..8], lines[8..];
    assert lines == front + back;
    SplitJoinPrefix(front, back, '\n');
    SplitShape(Join(back, '\n'), '\n');
    JoinStartsWithFirst(lines, '\n');
  }

  /** The daily report's lines when it has incidents: more than eight, opening with the
      title, a blank line and the summary block, the date free of newlines. */
  predicate ReportOpening(lines: seq<string>, d: string, a: nat, b: nat, c: nat, e: nat) {
    && |lines| > 8 && '\n' !in d
    && lines[..8] == [DailyReport.TITLE_PREFIX + d, ""] + DailyReport.SummaryBlock(a, b, c, e)
  }

  /** A text whose lines open with the title, a blank line and the summary block is parsed
      into a report whose summary holds the four figures. */
  lemma ReportTextSummary(lines: seq<string>, d: string, a: nat, b: nat, c: nat, e: nat)
    requires ReportOpening(lines, d, a, b, c, e)
    ensures var parsed := ParseSpec(Join(lines, '\n'));
      parsed.Some? && parsed.value.summary == ExpectedSummary(a, b, c, e)
  {
    OpensWithSummaryAt(lines, d, a, b, c, e);
    HeadHasNoNewline(lines, d, a, b, c, e);
    SplitReport(lines);
    ParsedSummary(Split(Join(lines, '\n'), '\n'), d, a, b, c, e);
  }

  /** The daily report with incidents opens as the dashboard expects. */
  lemma DailyReportOpening(d: string, incidents: seq<DailyReport.Incident>)
    requires incidents != [] && '\n' !in d
    ensures ReportOpening(DailyReport.ReportLines(d, incidents), d, |incidents|,
      DailyReport.SuccessCount(incidents), DailyReport.FailedCount(incidents),
      DailyReport.UniqueInstances(incidents))
  {
    DailyReport.ReportHead(d, incidents);
  }
}

/** The read-back properties for the two report renderers, stated on their outputs. */
module ReportReadBack {
  import opened Wrappers
  import opened Strings
  import opened Dashboard
  import opened ParserReadBack
  import opened RoundTrip
  import DailyReport
  import SampleReport

  /** The dashboard reads the daily report's summary back: the total, the two heuristic
      counts and the number of distinct instances (a to e), under their lower-cased labels. */
  lemma DailyReportSummaryReadBack(d: string, incidents: seq<DailyReport.Incident>,
                                   a: nat, b: nat, c: nat, e: nat)
    requires incidents != [] && '\n' !in d
    requires a == |incidents| && b == DailyReport.SuccessCount(incidents)
    requires c == DailyReport.FailedCount(incidents) && e == DailyReport.UniqueInstances(incidents)
    ensures ParseSpec(Join(DailyReport.ReportLines(d, incidents), '\n')).Some?
    ensures ParseSpec(Join(DailyReport.ReportLines(d, incidents), '\n')).value.summary
      == ExpectedSummary(a, b, c, e)
  {
    DailyReportOpening(d, incidents);
    ReportTextSummary(DailyReport.ReportLines(d, incidents), d, a, b, c, e);
  }

  /** The sample report opens as the dashboard expects; with ReportTextSummary and
      SampleReportText, the dashboard reads its summary back: the total, the number of incidents
      flagged as successes, the rest, and the number of distinct instance ids. */
  lemma SampleReportOpening(d: string, incidents: seq<SampleReport.SampleIncident>)
    requires SampleReport.MissingKey(incidents).None? && '\n' !in d
    ensures ReportOpening(SampleReport.SampleLines(d, incidents), d, |incidents|,
      SampleReport.SuccessTotal(incidents), |incidents| - SampleReport.SuccessTotal(incidents),
      |SampleReport.IdSet(incidents)|)
  {
    SampleReport.SampleReportShape(d, incidents);
  }

  /** Without a missing attribute the sample report is its lines joined with newlines. */
  lemma SampleReportText(d: string, incidents: seq<SampleReport.SampleIncident>)
    requires SampleReport.MissingKey(incidents).None?
    ensures SampleReport.BuildSpec(d, incidents) == Ok(Join(SampleReport.SampleLines(d, incidents), '\n'))
  {
  }

  /** Splitting a text whose first line holds no newline gives that line back first. */
  lemma FirstLineBack(lines: seq<string>)
    requires |lines| >= 2 && lines[0] != "" && '\n' !in lines[0]
    ensures Join(lines, '\n') != ""
    ensures var parsed := Split(Join(lines, '\n'), '\n'); parsed != [] && parsed[0] == lines[0]
  {
    SplitJoinPrefix([lines[0]], lines[1..], '\n');
    assert [lines[0]] + lines[1..] == lines;
    JoinStartsWithFirst(lines, '\n');
  }

  /** A text whose first line is a title holding no newline is dated by that line. */
  lemma TextDate(lines: seq<string>)
    requires |lines| >= 2 && '\n' !in lines[0] && StartsWith(lines[0], TITLE_MARK)
    ensures ParseSpec(Join(lines, '\n')).Some?
    ensures ParseSpec(Join(lines, '\n')).value.date == DateOfLine(lines[0])
  {
    assert lines[0][0] == TITLE_MARK[0];
    FirstLineBack(lines);
    DateOfFirstLine(Split(Join(lines, '\n'), '\n'));
  }

  /** A text whose first line is the title of a date free of "-", newlines and surrounding
      whitespace is read as carrying that date. */
  lemma TitleTextDate(lines: seq<string>, d: string)
    requires |lines| >= 2 && lines[0] == "# Daily Cloud Incident Report - " + d
    requires '\n' !in d && '-' !in d && (d == [] || (!IsSpace(d[0]) && !IsSpace(d[|d| - 1])))
    ensures ParseSpec(Join(lines, '\n')).Some?
    ensures ParseSpec(Join(lines, '\n')).value.date == Some(d)
  {
    TitleSpelledOut(d);
    TextDate(lines);
    DateOfTitle(lines[0], d);
  }

  /** A text titled with a date `ym-day` whose day holds no "-" is read as dated `day`. */
  lemma TitleTextDay(lines: seq<string>, ym: string, day: string)
    requires |lines| >= 2 && lines[0] == "# Daily Cloud Incident Report - " + ym + "-" + day
    requires '\n' !in ym && '\n' !in day && '-' !in day
    requires day == [] || (!IsSpace(day[0]) && !IsSpace(day[|day| - 1]))
    ensures ParseSpec(Join(lines, '\n')).Some?
    ensures ParseSpec(Join(lines, '\n')).value.date == Some(day)
  {
    TitleMarkStarts(ym, "-" + day);
    TextDate(lines);
    DateAfterLastHyphen(lines[0], "# Daily Cloud Incident Report - " + ym, day);
    StripUnchanged(day);
  }

  lemma TitleSpelledOut(d: string)
    ensures "# Daily Cloud Incident Report - " + d == TITLE_MARK + " - " + d
    ensures StartsWith(TITLE_MARK + " - " + d, TITLE_MARK)
  {
  }

  lemma TitleMarkStarts(ym: string, rest: string)
    ensures StartsWith("# Daily Cloud Incident Report - " + ym + rest, TITLE_MARK)
  {
    var t := "# Daily Cloud Incident Report - ";
    assert TITLE_MARK <= t;
    assert t <= t + ym + rest;
  }

  lemma TitleAssoc(ym: string, day: string)
    ensures DailyReport.Title(ym + "-" + day) == "# Daily Cloud Incident Report - " + ym + "-" + day
  {
  }

  /** The dashboard reads back a date that holds neither "-" nor a newline nor surrounding
      whitespace, whether or not the report has incidents. */
  lemma DailyReportDateReadBack(d: string, incidents: seq<DailyReport.Incident>)
    requires '\n' !in d && '-' !in d && (d == [] || (!IsSpace(d[0]) && !IsSpace(d[|d| - 1])))
    ensures ParseSpec(Join(DailyReport.ReportLines(d, incidents), '\n')).Some?
    ensures ParseSpec(Join(DailyReport.ReportLines(d, incidents), '\n')).value.date == Some(d)
  {
    DailyReport.ReportTitle(d, incidents);
    TitleTextDate(DailyReport.ReportLines(d, incidents), d);
  }

  /** For the YYYY-MM-DD dates the report is written for, the dashboard shows the day only:
      of a date `ym-day` it reads back `day`. */
  lemma DailyReportDayOnly(ym: string, day: string, incidents: seq<DailyReport.Incident>)
    requires '\n' !in ym && '\n' !in day && '-' !in day
    requires day == [] || (!IsSpace(day[0]) && !IsSpace(day[|day| - 1]))
    ensures ParseSpec(Join(DailyReport.ReportLines(ym + "-" + day, incidents), '\n')).Some?
    ensures ParseSpec(Join(DailyReport.ReportLines(ym + "-" + day, incidents), '\n')).value.date == Some(day)
  {
    DailyReport.ReportTitle(ym + "-" + day, incidents);
    TitleAssoc(ym, day);
    TitleTextDay(DailyReport.ReportLines(ym + "-" + day, incidents), ym, day);
  }
}
