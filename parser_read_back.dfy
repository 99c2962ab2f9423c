/** What the dashboard's parser reads back from the lines the report generators write:
    bullets, counts, the title's date and the incident table. */
module ParserReadBack {
  import opened Wrappers
  import opened Strings
  import opened Dashboard

  /** A bullet name the parser gives back unchanged: non-empty, no ":", no whitespace at
      either end. */
  predicate CleanName(name: string) {
    name != "" && ':' !in name && !IsSpace(name[0]) && !IsSpace(name[|name| - 1])
  }

  predicate AllDigits(ds: string) {
    ds != [] && forall i :: 0 <= i < |ds| ==> IsDigit(ds[i])
  }

  /** The line `- name: digits` belongs to a bulleted run and reads as (name, " digits"). */
  lemma BulletLineReads(name: string, digits: string)
    requires CleanName(name) && AllDigits(digits)
    ensures Marked("- " + name + ": " + digits, '-')
    ensures KeyValue("- " + name + ": " + digits) == Some((name, " " + digits))
  {
    var line := "- " + name + ": " + digits;
    assert line[0] == '-' && line[|line| - 1] == digits[|digits| - 1];
    StripUnchanged(line);
    assert StartsWith(line, ['-']);
    var inner := name + ": " + digits;
    assert Rest(line) == " " + inner + "";
    assert inner[0] == name[0] && inner[|inner| - 1] == digits[|digits| - 1];
    StripAround(" ", inner, "");
    var value := " " + digits;
    assert inner == name + [':'] + value;
    SplitAfter(name, value, ':');
    assert forall i :: 0 <= i < |value| ==> value[i] != ':' by {
      assert forall i :: 1 <= i < |value| ==> value[i] == digits[i - 1];
    }
    SplitNoSep(value, ':');
  }

  /** A count rendered after ": " reads back as the same number. */
  lemma RenderedCount(n: nat)
    ensures ParseIntJs(" " + NatToString(n)) == Some(n)
    ensures SummaryValueOf(" " + NatToString(n)) == Num(n)
  {
    ParseIntOfNatToString(" ", n);
  }

  /** A rendered summary bullet sets its lowered name to its number. */
  lemma SummaryBulletReads(summary: map<string, SummaryValue>, name: string, n: nat)
    requires CleanName(name)
    ensures Marked("- " + name + ": " + NatToString(n), '-')
    ensures SummaryStep(summary, "- " + name + ": " + NatToString(n)) == summary[Lower(name) := Num(n)]
  {
    BulletLineReads(name, NatToString(n));
    RenderedCount(n);
    StripUnchanged(name);
  }

  /** A rendered breakdown bullet reads back as its name and count. */
  lemma BreakdownBulletReads(name: string, n: nat)
    requires CleanName(name)
    ensures Marked("- " + name + ": " + NatToString(n), '-')
    ensures BreakdownItem("- " + name + ": " + NatToString(n)) == Some(Breakdown(name, n))
  {
    BulletLineReads(name, NatToString(n));
    RenderedCount(n);
    StripUnchanged(name);
  }

  /** A pair is the text before the first ":" of the bullet and the text up to the next
      ":" (or the end); anything after a second ":" is dropped. */
  lemma KeyValueFirstColon(line: string)
    requires KeyValue(line).Some?
    ensures StartsWith(BulletText(line), KeyValue(line).value.0 + [':'] + KeyValue(line).value.1)
    ensures ':' !in KeyValue(line).value.0 && ':' !in KeyValue(line).value.1
  {
    KeyValueShape(line);
    SplitFirstTwo(BulletText(line), ':');
  }

  /** A section heading is looked up without regard to its case. */
  lemma SectionMatchIgnoresCase(line: string, heading: string)
    ensures Matches(SectionLine(Upper(heading)), line) <==> Matches(SectionLine(heading), line)
  {
    LowerUpper(heading);
  }

  // ----- The date

  /** Text that opens with the title is dated by its first line. */
  lemma DateOfFirstLine(lines: seq<string>)
    requires lines != [] && StartsWith(lines[0], TITLE_MARK)
    ensures DateOf(lines) == DateOfLine(lines[0])
  {
    assert Matches(TitleLine, lines[0]);
  }

  /** The date is the trimmed text after the line's last "-". */
  lemma DateAfterLastHyphen(line: string, front: string, back: string)
    requires line == front + "-" + back && '-' !in back
    ensures DateOfLine(line) == Some(Strip(back))
  {
    assert line[|front| + 1..] == back;
    LastIndexOfAt(line, |front|, '-');
  }

  /** A title whose date holds no "-" gives the date back. */
  lemma DateOfTitle(line: string, d: string)
    requires line == TITLE_MARK + " - " + d
    requires '-' !in d && (d == [] || (!IsSpace(d[0]) && !IsSpace(d[|d| - 1])))
    ensures DateOfLine(line) == Some(d)
  {
    assert line == (TITLE_MARK + " ") + "-" + (" " + d);
    assert forall i :: 0 <= i < |" " + d| ==> (" " + d)[i] != '-' by {
      assert forall i :: 1 <= i < |" " + d| ==> (" " + d)[i] == d[i - 1];
    }
    DateAfterLastHyphen(line, TITLE_MARK + " ", " " + d);
    StripAround(" ", d, "");
    assert " " + d + "" == " " + d;
  }

  /** For the report's YYYY-MM-DD title the date read is the day only. */
  lemma DateIsDayOnly(line: string)
    requires line == TITLE_MARK + " - 2025-11-29"
    ensures DateOfLine(line) == Some("29")
  {
    var front := TITLE_MARK + " - 2025-11";
    assert line == front + "-" + "29";
    DateAfterLastHyphen(line, front, "29");
    StripUnchanged("29");
  }

  // ----- The incident table

  /** Every row read has the header cells as its keys. */
  lemma {:induction false} TableRowsKeys(headers: seq<string>, lines: seq<string>, start: nat, end: nat)
    requires start <= end <= |lines|
    ensures forall r :: 0 <= r < |TableRows(headers, lines, start, end)| ==>
      TableRows(headers, lines, start, end)[r].Keys == set k | 0 <= k < |headers| :: headers[k]
    decreases end
  {
    if end > start {
      TableRowsKeys(headers, lines, start, end - 1);
      var cells := Cells(lines[end - 1]);
      if |cells| == |headers| {
        RowObjectKeys(headers, cells);
      }
    }
  }
}
