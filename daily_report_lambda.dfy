/** The daily-report Lambda (src/daily_report_lambda.py): choose the report date from the
    event, mail the report, then archive it in S3 under `prefix + date + ".md"`. Today's
    date, the settings (REPORT_BUCKET_NAME, REPORT_PREFIX, SES_SENDER, SES_RECIPIENTS) and
    the report builder are parameters, the builder answering the report or the exception
    building it raised (a failed DynamoDB scan, say); S3 is a client object that logs every upload and
    answers with a fixed outcome. */
module DailyReportLambda {
  import opened Wrappers
  import opened Strings
  import opened Json
  import opened SendEmail

  // ----- The report date

  /** `event.get("detail") or {}` of a dict event. */
  function DetailOf(fields: seq<(string, Value)>): Value {
    var detail := Lookup(fields, "detail").GetOr(Null);
    if Truthy(detail) then detail else Object([])
  }

  /** A string bound to "date" in the fields, if there is one. */
  predicate DateStringIn(fields: seq<(string, Value)>) {
    Lookup(fields, "date").Some? && Lookup(fields, "date").value.Str?
  }

  /** `_get_report_date_from_event`, with `today` standing for the UTC date of the call.
      `detail.get` on a truthy detail that is not a dict raises AttributeError. */
  function ReportDateFromEvent(event: Value, today: string): (r: Result<string>)
    ensures !event.Object? ==> r == Ok(today)
    ensures event.Object? && DateStringIn(event.fields) ==>
      r == Ok(Lookup(event.fields, "date").value.s)
    ensures (event.Object? && !DateStringIn(event.fields) && DetailOf(event.fields).Object?
             && DateStringIn(DetailOf(event.fields).fields)) ==>
      r == Ok(Lookup(DetailOf(event.fields).fields, "date").value.s)
    ensures r.Raised? <==>
      event.Object? && !DateStringIn(event.fields) && !DetailOf(event.fields).Object?
    ensures r.Ok? && r.value != today ==>
      event.Object? && (DateStringIn(event.fields) || DateStringIn(DetailOf(event.fields).fields))
  {
    match event
    case Object(fields) =>
      if DateStringIn(fields) then Ok(Lookup(fields, "date").value.s)
      else
        (match Get(DetailOf(fields), "date", Null)
         case Raised(e) => Raised(e)
         case Ok(d) => if d.Str? then Ok(d.s) else Ok(today))
    case _ => Ok(today)
  }

  /** An event without any date answers today's date. */
  lemma NoDateIsToday(fields: seq<(string, Value)>, today: string)
    requires Lookup(fields, "date").None? && Lookup(fields, "detail").None?
    ensures ReportDateFromEvent(Object(fields), today) == Ok(today)
  {
    assert DetailOf(fields) == Object([]);
  }

  // ----- The S3 key

  const DEFAULT_PREFIX := "daily-reports/"
  const NO_BUCKET := "ValueError: REPORT_BUCKET_NAME is not configured"
  const CONTENT_TYPE := "text/markdown; charset=utf-8"
  const CONTENT_DISPOSITION := "inline"

  /** The key prefix: the setting, or "daily-reports/" when empty, with a "/" appended when
      it lacks one. */
  function ReportPrefix(configured: string): (p: string)
    ensures EndsWith(p, "/")
    ensures configured == "" ==> p == DEFAULT_PREFIX
    ensures configured != "" ==> StartsWith(p, configured) && |p| <= |configured| + 1
    ensures EndsWith(configured, "/") ==> p == configured
  {
    var prefix := if configured == "" then DEFAULT_PREFIX else configured;
    if prefix != "" && !EndsWith(prefix, "/") then prefix + "/" else prefix
  }

  /** Normalising a prefix twice is normalising it once. */
  lemma PrefixIdempotent(configured: string)
    ensures ReportPrefix(ReportPrefix(configured)) == ReportPrefix(configured)
  {
  }

  /** `f"{prefix}{date_str}.md"`. */
  function ReportKey(configured: string, dateStr: string): (key: string)
    ensures StartsWith(key, ReportPrefix(configured)) && EndsWith(key, ".md")
    ensures |key| == |ReportPrefix(configured)| + |dateStr| + 3
    ensures key[|ReportPrefix(configured)|..|key| - 3] == dateStr
  {
    var key := ReportPrefix(configured) + dateStr + ".md";
    assert key[|ReportPrefix(configured)|..|key| - 3] == dateStr;
    key
  }

  /** Different dates are archived under different keys. */
  lemma KeysTellDatesApart(configured: string, d1: string, d2: string)
    requires d1 != d2
    ensures ReportKey(configured, d1) != ReportKey(configured, d2)
  {
    var k1, k2 := ReportKey(configured, d1), ReportKey(configured, d2);
    if |k1| == |k2| {
      assert k1[|ReportPrefix(configured)|..|k1| - 3] == d1;
      assert k2[|ReportPrefix(configured)|..|k2| - 3] == d2;
    }
  }

  // ----- S3

  /** One `put_object` request; the body is the report text, sent encoded as UTF-8. */
  datatype Upload = Upload(bucket: string, key: string, body: string, contentType: string,
                           contentDisposition: string)

  /** The S3 API for one invocation: each request is logged in `uploads`; every request
      fails with `failure` (the exception's text) or succeeds when it is None. */
  class S3Client {
    var uploads: seq<Upload>
    const failure: Option<string>

    constructor (failure: Option<string>)
      ensures this.failure == failure && uploads == []
    {
      this.failure := failure;
      uploads := [];
    }

    method PutObject(upload: Upload) returns (error: Option<string>)
      modifies this
      ensures uploads == old(uploads) + [upload]
      ensures error == failure
    {
      uploads := uploads + [upload];
      error := failure;
    }
  }

  /** The dict upload_report_to_s3 returns: SUCCESS, or FAILED with the error; both carry
      the bucket and the key. */
  datatype S3Result =
    | Uploaded(bucket: string, key: string)
    | UploadFailed(error: string, bucket: string, key: string)
  {
    function Status(): string {
      if Uploaded? then "SUCCESS" else "FAILED"
    }
  }

  /** What one upload answers and which requests S3 receives. */
  datatype Uploading = Uploading(result: Result<S3Result>, uploads: seq<Upload>)

  /** The specification of `upload_report_to_s3` on S3's fixed answer. Every exception of
      the upload is caught. */
  function UploadRun(dateStr: string, report: string, bucket: string, prefix: string,
                     failure: Option<string>): (r: Uploading)
    ensures bucket == "" ==> r == Uploading(Raised(NO_BUCKET), [])
    ensures bucket != "" ==> r.result.Ok?
    ensures bucket != "" ==>
      r.uploads == [Upload(bucket, ReportKey(prefix, dateStr), report, CONTENT_TYPE, CONTENT_DISPOSITION)]
    ensures r.result.Ok? ==>
      r.result.value.bucket == bucket && r.result.value.key == ReportKey(prefix, dateStr)
    ensures r.result.Ok? ==> (r.result.value.UploadFailed? <==> failure.Some?)
    ensures r.result.Ok? && r.result.value.UploadFailed? ==> r.result.value.error == failure.value
  {
    if bucket == "" then Uploading(Raised(NO_BUCKET), [])
    else
      var key := ReportKey(prefix, dateStr);
      var upload := Upload(bucket, key, report, CONTENT_TYPE, CONTENT_DISPOSITION);
      match failure
      case None => Uploading(Ok(Uploaded(bucket, key)), [upload])
      case Some(e) => Uploading(Ok(UploadFailed(e, bucket, key)), [upload])
  }

  /** `upload_report_to_s3` against the client. */
  method UploadReportToS3(dateStr: string, report: string, bucket: string, configuredPrefix: string,
                          s3: S3Client) returns (r: Result<S3Result>)
    modifies s3
    ensures r == UploadRun(dateStr, report, bucket, configuredPrefix, s3.failure).result
    ensures s3.uploads == old(s3.uploads) + UploadRun(dateStr, report, bucket, configuredPrefix, s3.failure).uploads
  {
    if bucket == "" {
      return Raised(NO_BUCKET);
    }
    var prefix := if configuredPrefix == "" then DEFAULT_PREFIX else configuredPrefix;
    if prefix != "" && !EndsWith(prefix, "/") {
      prefix := prefix + "/";
    }
    var key := prefix + dateStr + ".md";
    var error := s3.PutObject(Upload(bucket, key, report, CONTENT_TYPE, CONTENT_DISPOSITION));
    if error.None? {
      r := Ok(Uploaded(bucket, key));
    } else {
      r := Ok(UploadFailed(error.value, bucket, key));
    }
  }

  // ----- The handler

  /** The handler's answer: the date and both stages' results. */
  datatype DailyResult = DailyResult(date: string, emailResult: EmailResult, s3Result: S3Result)

  /** The settings the handler reads. */
  datatype Settings = Settings(sender: Option<string>, recipientsRaw: string, bucket: string,
                               prefix: string)

  /** What one invocation answers, what SES receives and what S3 receives. */
  datatype DailyRun = DailyRun(result: Result<DailyResult>, sent: seq<Email>, uploads: seq<Upload>)

  /** The specification of `lambda_handler`: the date, the report `build` gives for it (or
      the exception building it raises), the email, then the upload; an exception at any
      stage ends the run. */
  function HandlerRun(event: Value, today: string, build: string -> Result<string>,
                      settings: Settings, answer: SesAnswer, failure: Option<string>): (r: DailyRun)
    ensures r.result.Ok? ==> ReportDateFromEvent(event, today) == Ok(r.result.value.date)
    ensures r.result.Ok? ==>
      var d := r.result.value.date;
      && build(d).Ok?
      && SendRun(d, build(d).value, settings.sender, settings.recipientsRaw, answer).result
         == Ok(r.result.value.emailResult)
      && UploadRun(d, build(d).value, settings.bucket, settings.prefix, failure).result
         == Ok(r.result.value.s3Result)
    ensures ReportDateFromEvent(event, today).Raised? ==>
      r == DailyRun(Raised(ReportDateFromEvent(event, today).error), [], [])
    ensures ReportDateFromEvent(event, today).Ok? && build(ReportDateFromEvent(event, today).value).Raised? ==>
      r == DailyRun(Raised(build(ReportDateFromEvent(event, today).value).error), [], [])
    ensures ReportDateFromEvent(event, today).Ok? && build(ReportDateFromEvent(event, today).value).Ok? ==>
      var d := ReportDateFromEvent(event, today).value;
      var sending := SendRun(d, build(d).value, settings.sender, settings.recipientsRaw, answer);
      && r.sent == sending.sent
      && (sending.result.Raised? ==> r.result == Raised(sending.result.error) && r.uploads == [])
    ensures ReportDateFromEvent(event, today).Ok? && build(ReportDateFromEvent(event, today).value).Ok? ==>
      var d := ReportDateFromEvent(event, today).value;
      var uploading := UploadRun(d, build(d).value, settings.bucket, settings.prefix, failure);
      SendRun(d, build(d).value, settings.sender, settings.recipientsRaw, answer).result.Ok? ==>
        && r.uploads == uploading.uploads
        && (uploading.result.Raised? ==> r.result == Raised(uploading.result.error))
    ensures r.uploads != [] ==> |r.sent| == 1 && |r.uploads| == 1
    ensures r.uploads != [] ==> r.uploads[0].body == r.sent[0].body
    ensures r.result.Ok? ==> r.uploads != []
  {
    match ReportDateFromEvent(event, today)
    case Raised(e) => DailyRun(Raised(e), [], [])
    case Ok(date) =>
      match build(date)
      case Raised(e) => DailyRun(Raised(e), [], [])
      case Ok(report) =>
        var sending := SendRun(date, report, settings.sender, settings.recipientsRaw, answer);
        match sending.result
        case Raised(e) => DailyRun(Raised(e), sending.sent, [])
        case Ok(emailResult) =>
          var uploading := UploadRun(date, report, settings.bucket, settings.prefix, failure);
          match uploading.result
          case Raised(e) => DailyRun(Raised(e), sending.sent, uploading.uploads)
          case Ok(s3Result) =>
            DailyRun(Ok(DailyResult(date, emailResult, s3Result)), sending.sent, uploading.uploads)
  }

  /** `lambda_handler` against the two clients. */
  method LambdaHandler(event: Value, today: string, build: string -> Result<string>, settings: Settings,
                       ses: SesClient, s3: S3Client) returns (r: Result<DailyResult>)
    modifies ses, s3
    ensures r == HandlerRun(event, today, build, settings, ses.answer, s3.failure).result
    ensures ses.sent == old(ses.sent) + HandlerRun(event, today, build, settings, ses.answer, s3.failure).sent
    ensures s3.uploads == old(s3.uploads) + HandlerRun(event, today, build, settings, ses.answer, s3.failure).uploads
  {
    var date :- ReportDateFromEvent(event, today);
    var report :- build(date);
    var emailResult :- SendReportEmail(date, report, settings.sender, settings.recipientsRaw, ses);
    var s3Result :- UploadReportToS3(date, report, settings.bucket, settings.prefix, s3);
    return Ok(DailyResult(date, emailResult, s3Result));
  }
}
