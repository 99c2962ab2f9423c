/** Sending the daily report by mail (src/reporting/send_email.py): the recipient list is
    read from a comma-separated setting, the configuration is checked before SES is touched,
    and an SES ClientError becomes a FAILED result. SES is a client object that logs every
    request and answers with a fixed outcome; the sender and recipient settings are
    parameters. */
module SendEmail {
  import opened Wrappers
  import opened Strings
  import DailyReport

  // ----- Recipients

  /** The stripped parts that are not empty, in order. */
  function StrippedParts(parts: seq<string>): (r: seq<string>)
    ensures |r| <= |parts|
  {
    if parts == [] then []
    else (if PythonStrip(parts[0]) == "" then [] else [PythonStrip(parts[0])]) + StrippedParts(parts[1..])
  }

  /** `_parse_recipients`: the comma-separated addresses, stripped, without the empty ones. */
  function ParseRecipients(value: string): seq<string> {
    StrippedParts(Split(value, ','))
  }

  lemma {:induction false} StrippedPartsShape(parts: seq<string>)
    requires forall k :: 0 <= k < |parts| ==> ',' !in parts[k]
    ensures forall k :: 0 <= k < |StrippedParts(parts)| ==>
      var a := StrippedParts(parts)[k]; a != "" && ',' !in a && PythonStrip(a) == a
  {
    if parts != [] {
      StrippedPartsShape(parts[1..]);
      var a := PythonStrip(parts[0]);
      PythonStripShape(parts[0]);
      PythonStripUnchanged(a);
      var head := if a == "" then [] else [a];
      assert forall k :: 0 <= k < |head| ==> head[k] == a;
      assert forall k :: |head| <= k < |StrippedParts(parts)| ==>
        StrippedParts(parts)[k] == StrippedParts(parts[1..])[k - |head|];
    }
  }

  /** Every recipient is non-empty, holds no comma and has no whitespace at either end. */
  lemma RecipientsShape(value: string)
    ensures forall k :: 0 <= k < |ParseRecipients(value)| ==>
      var a := ParseRecipients(value)[k]; a != "" && ',' !in a && PythonStrip(a) == a
  {
    SplitShape(value, ',');
    StrippedPartsShape(Split(value, ','));
  }

  /** The recipients of two runs of parts, one after the other, are those of the first run
      followed by those of the second: the parts' order is kept. */
  lemma {:induction false} StrippedPartsAppend(a: seq<string>, b: seq<string>)
    ensures StrippedParts(a + b) == StrippedParts(a) + StrippedParts(b)
  {
    if a != [] {
      assert (a + b)[0] == a[0];
      assert (a + b)[1..] == a[1..] + b;
      StrippedPartsAppend(a[1..], b);
    } else {
      assert a + b == b;
    }
  }

  /** No recipient remains exactly when every part strips to nothing. */
  lemma {:induction false} StrippedPartsEmpty(parts: seq<string>)
    ensures StrippedParts(parts) == [] <==> forall k :: 0 <= k < |parts| ==> PythonStrip(parts[k]) == ""
  {
    if parts != [] {
      StrippedPartsEmpty(parts[1..]);
      assert forall k :: 1 <= k < |parts| ==> parts[k] == parts[1..][k - 1];
    }
  }

  lemma {:induction false} BlankFrom(s: string, i: nat)
    requires i <= |s|
    requires forall k :: i <= k < |s| ==> s[k] == ',' || IsPythonSpace(s[k])
    ensures StrippedParts(SplitFrom(s, ',', i)) == []
    decreases |s| - i
  {
    var j := NextSep(s, ',', i);
    NextSepShape(s, ',', i);
    var piece := s[i..j];
    assert forall m :: 0 <= m < |piece| ==> piece[m] == s[i + m];
    PythonStripAllSpace(piece);
    if j < |s| {
      BlankFrom(s, j + 1);
      var whole := [piece] + SplitFrom(s, ',', j + 1);
      assert whole[0] == piece && whole[1..] == SplitFrom(s, ',', j + 1);
    } else {
      assert s[i..] == piece;
    }
  }

  /** Input made only of commas and whitespace (the empty input too, and the separators
      U+001C..U+001F, which str.strip() removes) gives no recipient. */
  lemma BlankGivesNoRecipients(value: string)
    requires forall k :: 0 <= k < |value| ==> value[k] == ',' || IsPythonSpace(value[k])
    ensures ParseRecipients(value) == []
  {
    BlankFrom(value, 0);
  }

  /** Addresses that are non-empty, comma-free and stripped, joined with commas, read back
      as themselves. */
  lemma RecipientsRoundTrip(addresses: seq<string>)
    requires forall k :: 0 <= k < |addresses| ==>
      addresses[k] != "" && ',' !in addresses[k] && PythonStrip(addresses[k]) == addresses[k]
    ensures ParseRecipients(Join(addresses, ',')) == addresses
  {
    if addresses == [] {
      SplitNoSep("", ',');
    } else {
      SplitJoin(addresses, ',');
      KeptParts(addresses);
    }
  }

  lemma {:induction false} KeptParts(parts: seq<string>)
    requires forall k :: 0 <= k < |parts| ==> parts[k] != "" && PythonStrip(parts[k]) == parts[k]
    ensures StrippedParts(parts) == parts
  {
    if parts != [] {
      KeptParts(parts[1..]);
    }
  }

  // ----- SES

  /** One `send_email` request: Source, Destination.ToAddresses, the subject and the text
      body (both sent as UTF-8). */
  datatype Email = Email(source: string, toAddresses: seq<string>, subject: string, body: string)

  /** What SES answers: a MessageId, a ClientError, or any other exception. */
  datatype SesAnswer = Accepted(messageId: string) | ClientError(text: string) | OtherError(text: string)

  /** The SES API for one invocation: each request is logged in `sent`; every request is
      answered with `answer`. */
  class SesClient {
    var sent: seq<Email>
    const answer: SesAnswer

    constructor (answer: SesAnswer)
      ensures this.answer == answer && sent == []
    {
      this.answer := answer;
      sent := [];
    }

    method SendEmail(email: Email) returns (a: SesAnswer)
      modifies this
      ensures sent == old(sent) + [email]
      ensures a == answer
    {
      sent := sent + [email];
      a := answer;
    }
  }

  /** The dict send_report_email returns: status SUCCESS with message_id, or FAILED with
      error; both carry the recipients. */
  datatype EmailResult =
    | EmailSent(messageId: string, recipients: seq<string>)
    | EmailFailed(error: string, recipients: seq<string>)
  {
    function Status(): string {
      if EmailSent? then "SUCCESS" else "FAILED"
    }
  }

  const SUBJECT_PREFIX := "Daily Cloud Incident Report - "
  const NO_SENDER := "ValueError: SES_SENDER env var is not set"
  const NO_RECIPIENTS := "ValueError: SES_RECIPIENTS env var is not set or empty"

  /** The subject line: the report's own title without its Markdown mark. */
  function Subject(dateStr: string): (r: string)
    ensures "# " + r == DailyReport.Title(dateStr)
  {
    SUBJECT_PREFIX + dateStr
  }

  /** What one invocation answers and which requests SES receives. */
  datatype Sending = Sending(result: Result<EmailResult>, sent: seq<Email>)

  /** The specification of `send_report_email` on SES's fixed answer; `sender` and
      `recipientsRaw` are the SES_SENDER and SES_RECIPIENTS settings, the latter "" when
      unset. */
  function SendRun(dateStr: string, report: string, sender: Option<string>, recipientsRaw: string,
                   answer: SesAnswer): (r: Sending)
    ensures (sender.None? || sender.value == "") ==> r == Sending(Raised(NO_SENDER), [])
    ensures sender.Some? && sender.value != "" && ParseRecipients(recipientsRaw) == [] ==>
      r == Sending(Raised(NO_RECIPIENTS), [])
    ensures r.sent != [] ==>
      r.sent == [Email(sender.value, ParseRecipients(recipientsRaw), Subject(dateStr), report)]
    ensures r.result.Ok? ==>
      r.sent != [] && r.result.value.recipients == ParseRecipients(recipientsRaw)
    ensures r.result.Ok? && r.result.value.EmailSent? <==> r.sent != [] && answer.Accepted?
    ensures r.result.Ok? && r.result.value.EmailFailed? ==>
      answer.ClientError? && r.result.value.error == answer.text
    ensures r.result.Raised? && r.sent != [] ==> answer.OtherError? && r.result.error == answer.text
  {
    if sender.None? || sender.value == "" then Sending(Raised(NO_SENDER), [])
    else
      var recipients := ParseRecipients(recipientsRaw);
      if recipients == [] then Sending(Raised(NO_RECIPIENTS), [])
      else
        var email := Email(sender.value, recipients, Subject(dateStr), report);
        match answer
        case Accepted(id) => Sending(Ok(EmailSent(id, recipients)), [email])
        case ClientError(text) => Sending(Ok(EmailFailed(text, recipients)), [email])
        case OtherError(text) => Sending(Raised(text), [email])
  }

  /** `send_report_email` against the client. */
  method SendReportEmail(dateStr: string, report: string, sender: Option<string>,
                         recipientsRaw: string, ses: SesClient) returns (r: Result<EmailResult>)
    modifies ses
    ensures r == SendRun(dateStr, report, sender, recipientsRaw, ses.answer).result
    ensures ses.sent == old(ses.sent) + SendRun(dateStr, report, sender, recipientsRaw, ses.answer).sent
  {
    if sender.None? || sender.value == "" {
      return Raised(NO_SENDER);
    }
    var recipients := ParseRecipients(recipientsRaw);
    if recipients == [] {
      return Raised(NO_RECIPIENTS);
    }
    var subject := Subject(dateStr);
    var answer := ses.SendEmail(Email(sender.value, recipients, subject, report));
    match answer
    case Accepted(id) =>
      r := Ok(EmailSent(id, recipients));
    case ClientError(text) =>
      r := Ok(EmailFailed(text, recipients));
    case OtherError(text) =>
      r := Raised(text);
  }
}
