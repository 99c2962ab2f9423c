# Cloud incident auto-remediation, modelled in Dafny

This project models the decision logic of a small AWS incident pipeline and proves
properties of it. The pipeline has two AWS Lambda functions and a dashboard.

The alarm Lambda (`src/lambda_handler.py`):

- receives a CloudWatch alarm event;
- classifies it as `EC2_HIGH_CPU`, `EC2_STATUS_CHECK_FAILED`, `EC2_UNEXPECTED_STOP` or `UNKNOWN`;
- extracts the target instance id;
- dispatches to a remediation handler.

Only the status-check handler talks to EC2. It always asks for a dry-run reboot first and
issues a real reboot only when the dry-run passed and `DRY_RUN_ONLY` is off.

The daily-report Lambda (`src/daily_report_lambda.py`):

- picks the report date from its event;
- mails the Markdown report through SES;
- archives the report in S3.

The report is rendered by `src/reporting/daily_report.py` from a paginated table scan. A
second renderer, `reports/generate_sample_report.py`, writes a sample report. The dashboard
(`dashboard/app.js`, `parseMarkdownReport`) parses such a report back into structured data.

How the model is built:

- Python values decoded from JSON are the `Json.Value` datatype. A dict is a list of
  (key, value) pairs in insertion order.
- A Python exception that propagates is the `Raised` case of `Wrappers.Result`.
- Each AWS service is a class that logs every request in a `seq` field and answers with fixed
  outcomes given at construction: `StatusCheck.Ec2Client`, `DailyReport.IncidentScan`,
  `IncidentStore.IncidentTable`, `SendEmail.SesClient` and `DailyReportLambda.S3Client`.
  Because the answers are fixed, "must not reboot" and "raises before any SES call" become
  statements about the request log.
- An operation that works step by step is a method with loops. It is proved equal to a
  specification function, and the properties are proved about that function. Examples: the
  scan loop, the Markdown builders, the dashboard parser, and the handlers against their
  clients.
- Pure code is functions and lemmas.
- The `RoundTrip`, `ReportReadBack`, `ParserReadBack` and `BreakdownReadBack` modules relate
  the renderers to the dashboard parser. They prove that it reads the summary figures and the
  date back from a rendered report, and that it reads rendered breakdown bullets back as the
  entries they came from.

Where the code and its documentation differ, the model follows the code, except where an
import fails:

- `src/lambda_handler.py:6` imports `extract_instance_id` from `ec2_status_check`, which does
  not define it, so the module raises ImportError when it loads. The model uses the function
  of `src/event_router.py:4`.
- `src/daily_report_lambda.py:5` imports `get_s3_client` from `src/utils/aws_clients.py`, which
  defines only `get_ec2_client`, `get_dynamodb_client` and `get_ses_client`, so this module
  raises ImportError when it loads too. `DailyReportLambda.UploadReportToS3`, `HandlerRun` and
  `LambdaHandler` model the handler as it evidently means to run, with an S3 client as a
  parameter.
- The dashboard's date is the text after the last `-` of the title. For a `YYYY-MM-DD` date it
  is therefore the day only (`ReportReadBack.DailyReportDayOnly`).
- `identify_event_type` is not total: a non-dict event or detail raises, and the model says so.

## Model

| member | source | states |
|---|---|---|
| EventRouter.Classify | src/event_router.py:29-38 | the category of a lowercased alarm name is always one of the four category strings |
| EventRouter.AlarmName | src/event_router.py:26-27 | reading the alarm name raises exactly when the event or its detail is not a dict |
| EventRouter.IdentifyEventType | src/event_router.py:25-38 | raises exactly when the alarm name cannot be read; otherwise one of the four categories |
| EventRouter.ClassifyIsFirstMatch | src/event_router.py:29-38 | the if-chain equals an independent first-match-wins reading of the rule list cpu, status, stop |
| EventRouter.IdentifyIsFirstMatch | src/event_router.py:25-38 | identify_event_type is the first rule whose keyword occurs in the lowercased name |
| EventRouter.CpuTakesPriority | src/event_router.py:29-30 | a name containing "cpu" is EC2_HIGH_CPU whatever else it contains |
| EventRouter.PriorityOrder | src/event_router.py:32-38 | without "cpu": "status" gives the status check, then "stop" gives the unexpected stop, and no keyword gives UNKNOWN |
| EventRouter.CaseInsensitive | src/event_router.py:27 | a name and its lowercase form are classified alike |
| EventRouter.DependsOnlyOnAlarmName | src/event_router.py:26-27 | two events whose details bind alarmName alike are classified alike |
| EventRouter.MissingNameIsUnknown | src/event_router.py:27-38 | a missing alarm name reads as "" and gives UNKNOWN |
| EventRouter.ExtractInstanceId | src/event_router.py:4-22 | the loop over the first metric's dimensions returns the value of the reference search, with any exception turned into None |
| EventRouter.ScanDimensions | src/event_router.py:15-19 | the reference reading of the dimension loop: the value of the first dimension named InstanceId, None when none is, and the AttributeError of a non-dict dimension reached first (FirstInstanceDimensionWins, NoInstanceDimension, NonDictDimensionRaises) |
| EventRouter.InstanceIdOf | src/event_router.py:4-22 | what extract_instance_id returns: the navigation to the first metric's dimensions, the reference search over them, and None for any exception; ExtractInstanceId's loop is proved to return it |
| EventRouter.NoMetricsNoInstance | src/event_router.py:8-9 | an empty metrics list gives None |
| EventRouter.OnlyFirstMetric | src/event_router.py:11-13 | metrics after the first never change the answer |
| EventRouter.FirstInstanceDimensionWins | src/event_router.py:15-17 | the value of the first dimension named exactly InstanceId is returned |
| EventRouter.NoInstanceDimension | src/event_router.py:15-19 | with no InstanceId dimension the answer is None |
| EventRouter.NonDictDimensionRaises | src/event_router.py:16-22 | a non-dict dimension reached before a match raises, which the function turns into None |
| EventRouter.SampleEventClassified | scripts/simulate_event.py:12-50 | the simulator's sample alarm is classified as EC2_STATUS_CHECK_FAILED |
| EventRouter.SampleEventInstance | scripts/simulate_event.py:36-41 | the sample alarm's instance id is i-1234567890abcdef0 |
| Remediation.Dispatch | src/remediation/__init__.py:8-27 | each of the three category strings gets its own handler's answer and EC2 log; any other string gets UNKNOWN / SKIP with the fixed message followed by the event type, and no EC2 call |
| Remediation.RunRemediation | src/remediation/__init__.py:8-27 | the dispatch against the EC2 client returns what Dispatch specifies and appends its requests to the log |
| Remediation.DispatchShape | src/remediation/__init__.py:8-27 | the answer's remediation_type is the event type or UNKNOWN; only the status-check path calls EC2 or raises; every log obeys the dry-run-first rule and has at most two requests |
| Remediation.CaseSensitive | src/remediation/__init__.py:10-20 | a lowercased category name is not handled |
| HighCpu.Handle | src/remediation/ec2_high_cpu.py:5-13 | EC2_HIGH_CPU / NOOP with the fixed message and no instance_id |
| HighCpu.IgnoresEvent | src/remediation/ec2_high_cpu.py:5-13 | the answer does not depend on the event |
| UnexpectedStop.Handle | src/remediation/ec2_unexpected_stop.py:5-13 | EC2_UNEXPECTED_STOP / NOOP with the fixed message and no instance_id |
| UnexpectedStop.IgnoresEvent | src/remediation/ec2_unexpected_stop.py:5-13 | the answer does not depend on the event |
| StatusCheck.DryRunOnlyFromEnv | src/remediation/ec2_status_check.py:6 | DRY_RUN_ONLY holds when unset, and otherwise exactly when the value lowercases to "true" |
| StatusCheck.Ec2Client.RebootInstances | src/remediation/ec2_status_check.py:31-51 | each reboot request is logged with its instance ids and DryRun flag, and answers the client's fixed outcome |
| StatusCheck.HandleRun | src/remediation/ec2_status_check.py:9-60 | at most two EC2 requests; every real reboot follows a dry-run of the same instance; no request exactly when there is no truthy instance id; a real reboot exactly when the dry-run passed and DRY_RUN_ONLY is off; an exception only from reading the parsed event or from the real reboot |
| StatusCheck.Handle | src/remediation/ec2_status_check.py:9-60 | the handler against the client returns what HandleRun specifies and leaves exactly its requests in the log |
| StatusCheck.SkipWithoutInstance | src/remediation/ec2_status_check.py:13-21 | a missing or falsy instance id answers SKIP with no EC2 request |
| StatusCheck.FailedDryRunStops | src/remediation/ec2_status_check.py:29-39 | a dry-run error lacking DryRunOperation answers FAILED_DRY_RUN with the error text after the single dry-run request |
| StatusCheck.DryRunOnlyWouldReboot | src/remediation/ec2_status_check.py:41-48 | a passed dry-run under DRY_RUN_ONLY answers WOULD_REBOOT with the instance id and makes no real reboot |
| StatusCheck.RealRebootOnce | src/remediation/ec2_status_check.py:51-60 | a passed dry-run with DRY_RUN_ONLY off issues exactly one real reboot; without an error it answers REBOOT, and an error from it propagates |
| LambdaHandler.ParsedEvent | src/lambda_handler.py:13 | the parsed event binds raw to the event and instance_id to the extracted id |
| LambdaHandler.HandlerRun | src/lambda_handler.py:9-29 | statusCode 200 whenever it answers; the body's event type is identify_event_type's and its remediation is the dispatch's; a failed classification makes no EC2 call; otherwise the EC2 log is the dispatch's and an exception from the dispatch propagates unchanged; every log obeys the dry-run-first rule |
| LambdaHandler.Handle | src/lambda_handler.py:9-29 | the handler against the client returns what HandlerRun specifies and leaves exactly its requests in the log |
| LambdaHandler.SampleWouldReboot | src/lambda_handler.py:9-29 | with the sample alarm, a passing dry-run and DRY_RUN_ONLY on, the answer is WOULD_REBOOT for i-1234567890abcdef0 after a single dry-run |
| IncidentStore.MakeItem | src/storage/dynamodb_client.py:28-38 | pk is "INCIDENT#" + event_type; sk is now + "#" + id and begins with created_at; the remediation fields are copied or None; a non-dict remediation raises |
| IncidentStore.DistinctIdsDistinctKeys | src/storage/dynamodb_client.py:26-30 | two items built at the same instant with different ids get different sort keys |
| IncidentStore.IncidentTable.PutItem | src/storage/dynamodb_client.py:40 | a write appends the item, or raises and leaves the table unchanged |
| IncidentStore.PutIncident | src/storage/dynamodb_client.py:17-41 | one write of the item built, which is returned; a failed build or write raises and leaves the table unchanged |
| DailyReport.ScanCount | src/reporting/daily_report.py:22-31 | at least one scan is made |
| DailyReport.PageAt | src/reporting/daily_report.py:22-31 | the page the n-th scan answers; past the given answers, an empty page without LastEvaluatedKey |
| DailyReport.Collected | src/reporting/daily_report.py:22-33 | the items the scans from the n-th on collect, continuing exactly while a page carries a LastEvaluatedKey; CollectedIsConcat states it as the pages' concatenation and GetIncidentsForDate's loop is proved to return it |
| DailyReport.CollectedIsConcat | src/reporting/daily_report.py:22-33 | when the pages from n up to m carry a LastEvaluatedKey and page m does not, the list collected is the concatenation of their items in page order, after m - n + 1 scans |
| DailyReport.IncidentScan.Scan | src/reporting/daily_report.py:22-30 | each scan request is logged and answered by the next page |
| DailyReport.GetIncidentsForDate | src/reporting/daily_report.py:17-33 | returns the items the spec function collects, makes exactly ScanCount requests, all filtered on the date, each after the first starting from the previous page's LastEvaluatedKey |
| DailyReport.FailedCount | src/reporting/daily_report.py:52-56 | the failed count is at most the total |
| DailyReport.FailedCountExtremes | src/reporting/daily_report.py:52-56 | the count is 0 exactly when no incident's uppercased action + message holds FAILED, and the total exactly when every one does |
| DailyReport.SuccessCount | src/reporting/daily_report.py:57 | success and failed counts add up to the total |
| DailyReport.InstanceIds | src/reporting/daily_report.py:60 | there are no more distinct ids than incidents |
| DailyReport.InstanceIdsMembers | src/reporting/daily_report.py:60 | the set holds exactly the truthy instance_id values |
| DailyReport.UniqueInstances | src/reporting/daily_report.py:61 | the unique-instance count is at most the total |
| DailyReport.Column | src/reporting/daily_report.py:64-71 | one key per incident, its attribute or "UNKNOWN" where missing |
| DailyReport.BreakdownsSumToTotal | src/reporting/daily_report.py:64-87 | both breakdowns add up to the total, are in non-increasing count order, and hold exactly the Counter's entries |
| DailyReport.SortByCreated | src/reporting/daily_report.py:102-106 | the sorted list is a permutation of the incidents, in non-decreasing created_at order, with a missing created_at as "" |
| DailyReport.MessageCell | src/reporting/daily_report.py:112-115 | no newline and at most 80 characters; a short message only has its newlines replaced; a long one is its first 77 characters followed by "..." |
| DailyReport.Row | src/reporting/daily_report.py:107-120 | one incident's table row: its five attributes with "-" for a missing one and the message cell; Rows and ReportTable place one per sorted incident |
| DailyReport.Rows | src/reporting/daily_report.py:106-120 | one row per incident, in the given order |
| DailyReport.Bullets | src/reporting/daily_report.py:81-87 | one `- name: count` line per entry, in order |
| DailyReport.ReportTitle | src/reporting/daily_report.py:40 | the first line is always `# Daily Cloud Incident Report - ` + date |
| DailyReport.EmptyReport | src/reporting/daily_report.py:40-45 | with no incidents the text is the title, a blank line and the notice |
| DailyReport.ReportHead | src/reporting/daily_report.py:40-78 | otherwise the title and a blank line are followed by the summary block with the total, success, failed and unique-instance figures |
| DailyReport.ReportTable | src/reporting/daily_report.py:93-121 | the report ends with the table header, its separator and the rows of the incidents sorted by created_at |
| DailyReport.ReportLines | src/reporting/daily_report.py:36-122 | the lines of the report, stated by ReportTitle, EmptyReport, ReportHead and ReportTable and returned, joined, by GenerateMarkdown |
| DailyReport.DetailRowsArePermutationSorted | src/reporting/daily_report.py:102-121 | the detail rows are one per incident: a permutation, sorted by created_at |
| DailyReport.AppendBullets | src/reporting/daily_report.py:81-82 | the loop appends exactly the bullets of the entries |
| DailyReport.AppendRows | src/reporting/daily_report.py:106-120 | the loop appends exactly one row per sorted incident |
| DailyReport.GenerateMarkdown | src/reporting/daily_report.py:36-122 | the appended lines, joined with newlines, are the specified report |
| Counter.FirstIndex | src/reporting/daily_report.py:64-66 | the position of a key's first occurrence |
| Counter.KeyIndex | src/reporting/daily_report.py:64-66 | None exactly when no entry has the key; otherwise the entry's position |
| Counter.Bump | src/reporting/daily_report.py:64-66 | one more occurrence: the key's count goes up by one, or it is appended with count 1; keys stay distinct and the total grows by one |
| Counter.Tally | src/reporting/daily_report.py:64-71 | distinct keys whose counts add up to the number of keys |
| Counter.TallyCounts | src/reporting/daily_report.py:64-71 | each entry's count is the number of occurrences of its key |
| Counter.TallyCovers | src/reporting/daily_report.py:64-71 | every key that occurs has an entry |
| Counter.TallyInFirstOccurrenceOrder | reports/generate_sample_report.py:13-32 | entries are listed in the order their keys first occur |
| Counter.InsertByCount | src/reporting/daily_report.py:81-86 | inserting an entry keeps the multiset and the total |
| Counter.MostCommon | src/reporting/daily_report.py:81-86 | most_common lists the same entries, in non-increasing count order |
| Counter.InsertKeepsOrder | src/reporting/daily_report.py:81-86 | inserting by count into a non-increasing list keeps it non-increasing |
| SampleReport.RowMissing | reports/generate_sample_report.py:45-53 | None exactly when every incident carries created_at, action and message |
| SampleReport.MissingKey | reports/generate_sample_report.py:11-53 | None exactly when every incident carries all six attributes |
| SampleReport.SuccessTotal | reports/generate_sample_report.py:9 | the success count is at most the total |
| SampleReport.SuccessTotalExtremes | reports/generate_sample_report.py:9-10 | the count is 0 exactly when no incident is flagged, and the total exactly when all are |
| SampleReport.IdSet | reports/generate_sample_report.py:11 | no more ids than incidents |
| SampleReport.IdSetMembers | reports/generate_sample_report.py:11 | the set holds exactly the incidents' instance_id values, empty ones included |
| SampleReport.SampleBreakdown | reports/generate_sample_report.py:13-32 | each breakdown entry is a value that occurs with its count, every value has one, and entries come in first-occurrence order |
| SampleReport.SampleRows | reports/generate_sample_report.py:45-53 | one row per incident, in input order, with the message unmodified |
| SampleReport.BuildSpec | reports/generate_sample_report.py:6-55 | raises exactly when an incident lacks one of the six attributes, with the KeyError of the first lookup that fails |
| SampleReport.SampleLines | reports/generate_sample_report.py:16-53 | the sample report's lines when no attribute is missing; SampleReportShape and EmptySampleReport state their layout |
| SampleReport.EmptySampleReport | reports/generate_sample_report.py:18-43 | an empty list still gives the summary with zeros, the headings and the table header |
| SampleReport.SampleReportShape | reports/generate_sample_report.py:18-53 | the title and summary come first, with the flags' count, the rest and the distinct ids; the rows come last, in input order |
| SampleReport.AppendSampleRows | reports/generate_sample_report.py:45-53 | the loop appends one row per incident, or stops with the KeyError of the first incident whose row does not read |
| SampleReport.AppendSummary | reports/generate_sample_report.py:18-25 | the title and the four summary bullets, appended line by line |
| SampleReport.AppendHead | reports/generate_sample_report.py:8-32 | the lines up to the end of both breakdowns |
| SampleReport.BuildMarkdownReport | reports/generate_sample_report.py:6-55 | the method returns what BuildSpec specifies |
| Dashboard.FindFirst | dashboard/app.js:72-90 | findIndex's answer is a line of the text |
| Dashboard.FindFirstShape | dashboard/app.js:72-90 | None exactly when no line matches; otherwise the first line that does |
| Dashboard.DateOf | dashboard/app.js:72-80 | the date of the first title line, if any; ReadDate, DateOfFirstLine and DateAfterLastHyphen state what it is |
| Dashboard.KeyValue | dashboard/app.js:96-98 | a bullet's key and value: the first two ":"-parts of its text, kept when the key is non-empty and a value exists; KeyValueShape and KeyValueFirstColon state their shape |
| Dashboard.SummaryOf | dashboard/app.js:95-104 | the summary map the loop builds over a run of lines, a later key overwriting; ReadSummary's loop is proved to build it and ParsedSummary reads the daily report's figures from it |
| Dashboard.BreakdownItem | dashboard/app.js:111-118 | the entry one bullet pushes: the trimmed name and parseInt of the count, or 0 |
| Dashboard.RunEndShape | dashboard/app.js:95-153 | every line of a section's run starts, once trimmed, with the mark, and the line that ends it does not |
| Dashboard.SkipToPipeShape | dashboard/app.js:143 | the skip loop stops at the first line starting with "\|", or at the end |
| Dashboard.KeyValueShape | dashboard/app.js:97-113 | a pair read from a bullet has a non-empty key and no ":" in either half; a bullet without ":" is skipped |
| Dashboard.BreakdownsOf | dashboard/app.js:110-120 | no more entries than lines |
| Dashboard.CellsShape | dashboard/app.js:154-157 | every cell kept is non-empty and holds no "\|" |
| Dashboard.RowObjectKeys | dashboard/app.js:159-162 | a row's keys are exactly the header cells |
| Dashboard.RowObjectValues | dashboard/app.js:159-162 | each header maps to the cell of the last column with that name |
| Dashboard.TableRows | dashboard/app.js:153-166 | no more rows than lines |
| Dashboard.TableOf | dashboard/app.js:142-167 | the rows read after skipping to the first "\|" line, when a header and separator exist; ReadTable is proved to return it |
| Dashboard.SummarySection | dashboard/app.js:85-105 | the summary read under the first "**Summary**" heading, or an empty map without one |
| Dashboard.BreakdownSection | dashboard/app.js:86-137 | the entries read under the first matching heading, or none without one |
| Dashboard.DetailsSection | dashboard/app.js:88-168 | the table read from the first "## Incident Details" line, or none without one |
| Dashboard.ParseSpec | dashboard/app.js:59-171 | null exactly for the empty text |
| Dashboard.ReadSummary | dashboard/app.js:93-105 | the summary loop builds what the spec function gives for the run of "-" lines after the heading |
| Dashboard.ReadBreakdown | dashboard/app.js:108-137 | the breakdown loop pushes what the spec function gives for the run of "-" lines |
| Dashboard.ReadRows | dashboard/app.js:153-166 | the row loop pushes what the spec function gives for the run of "\|" lines |
| Dashboard.SkipToHeader | dashboard/app.js:143 | the skip loop stops where the spec function says |
| Dashboard.ReadTable | dashboard/app.js:140-168 | the table reading matches its specification: header and separator checks, then rows |
| Dashboard.ReadDate | dashboard/app.js:72-80 | the date is the stripped text after the last "-" of the first title line, or null |
| Dashboard.ReadSection | dashboard/app.js:86-137 | the entries under the first heading line, or none without one |
| Dashboard.ParseMarkdownReport | dashboard/app.js:59-171 | the parser returns what ParseSpec specifies |
| ParserReadBack.BulletLineReads | dashboard/app.js:95-98 | a rendered `- name: digits` line is in the run and reads as (name, " digits") |
| ParserReadBack.RenderedCount | dashboard/app.js:100-116 | a count rendered after ": " is parsed back as the same number |
| ParserReadBack.SummaryBulletReads | dashboard/app.js:95-102 | a rendered summary bullet sets its lowercased name to its number |
| ParserReadBack.BreakdownBulletReads | dashboard/app.js:110-118 | a rendered breakdown bullet reads back as its name and count |
| ParserReadBack.KeyValueFirstColon | dashboard/app.js:97-112 | the pair is the text before the first ":" and the text up to the next one |
| ParserReadBack.SectionMatchIgnoresCase | dashboard/app.js:82-83 | a heading is matched without regard to its case |
| ParserReadBack.DateOfFirstLine | dashboard/app.js:72-80 | a text opening with a title is dated by its first line |
| ParserReadBack.DateAfterLastHyphen | dashboard/app.js:76-78 | the date is the stripped text after the last "-" |
| ParserReadBack.DateOfTitle | dashboard/app.js:76-78 | a title whose date holds no "-" gives the date back |
| ParserReadBack.DateIsDayOnly | dashboard/app.js:76-78 | for the title of 2025-11-29 the date read is "29" |
| ParserReadBack.TableRowsKeys | dashboard/app.js:158-163 | every row read has exactly the header cells as keys |
| BreakdownReadBack.BreakdownsOfBullets | dashboard/app.js:110-120 | bullets rendered by the daily report's own `DailyReport.Bullet` from (name, count) entries with clean names read back as exactly those entries, in order |
| BreakdownReadBack.BulletRun | dashboard/app.js:110 | rendered bullets followed by an unmarked line, or by the end, form the whole run the loop reads |
| RoundTrip.SummaryHeadingFound | dashboard/app.js:82-85 | the summary heading is found on the report's third line |
| RoundTrip.ParsedSummary | dashboard/app.js:93-105 | lines opening with the title, a blank line and the summary block give the four figures under their lowercased labels |
| RoundTrip.SplitReport | dashboard/app.js:62 | splitting the joined report gives its first eight lines back |
| RoundTrip.ReportTextSummary | dashboard/app.js:59-105 | a text whose lines open with the summary block is parsed with those four figures |
| RoundTrip.DailyReportOpening | src/reporting/daily_report.py:40-78 | the daily report with incidents opens with the title, a blank line and the summary block of its figures |
| ReportReadBack.SampleReportText | reports/generate_sample_report.py:55 | without a missing attribute the sample report is its lines joined with newlines |
| ReportReadBack.DailyReportSummaryReadBack | dashboard/app.js:93-105 | the dashboard reads the daily report's total, success, failed and unique-instance figures back (src/reporting/daily_report.py:73-77) |
| ReportReadBack.SampleReportOpening | reports/generate_sample_report.py:18-24 | the sample report opens with the summary block of its own figures, so ReportTextSummary reads them back |
| ReportReadBack.TextDate | dashboard/app.js:62-80 | a text whose first line is a title is dated by that line |
| ReportReadBack.TitleTextDate | dashboard/app.js:72-80 | a title with a date free of "-" and surrounding whitespace gives that date back |
| ReportReadBack.TitleTextDay | dashboard/app.js:76-78 | a title with a date `ym-day` is read as dated `day` |
| ReportReadBack.DailyReportDateReadBack | dashboard/app.js:72-80 | the dashboard reads the daily report's date back when it holds no "-" (src/reporting/daily_report.py:40) |
| ReportReadBack.DailyReportDayOnly | dashboard/app.js:76-78 | for a `YYYY-MM-DD` date the dashboard shows the day only (src/reporting/daily_report.py:40) |
| SendEmail.ParseRecipients | src/reporting/send_email.py:10-12 | the comma-separated parts under Python's str.strip(), the empty ones dropped; RecipientsShape, StrippedPartsAppend, BlankGivesNoRecipients and RecipientsRoundTrip state what it gives |
| SendEmail.RecipientsShape | src/reporting/send_email.py:12 | every recipient is non-empty, holds no comma and is unchanged by str.strip() |
| SendEmail.StrippedPartsAppend | src/reporting/send_email.py:12 | the recipients of two runs of parts are those of the first followed by those of the second, so order is kept |
| SendEmail.StrippedPartsEmpty | src/reporting/send_email.py:12 | no recipient remains exactly when every part strips to nothing |
| SendEmail.BlankGivesNoRecipients | src/reporting/send_email.py:12 | input made only of commas and characters str.strip() removes (the ASCII whitespace and the separators U+001C..U+001F), the empty input too, gives an empty list |
| SendEmail.RecipientsRoundTrip | src/reporting/send_email.py:12 | clean addresses joined with commas are read back as themselves |
| SendEmail.SesClient.SendEmail | src/reporting/send_email.py:39-46 | each request is logged and answered with the client's fixed outcome |
| SendEmail.Subject | src/reporting/send_email.py:33 | the subject is the daily report's own title without its Markdown mark |
| SendEmail.SendRun | src/reporting/send_email.py:15-59 | a missing or empty sender raises first and an empty recipient list raises next, both with no SES request; otherwise one request with the sender, the recipients, the subject and the report unchanged; SUCCESS with the message id, FAILED with a ClientError's text, any other error propagates |
| SendEmail.SendReportEmail | src/reporting/send_email.py:15-59 | the method against the client returns what SendRun specifies and leaves exactly its requests in the log |
| DailyReportLambda.ReportDateFromEvent | src/daily_report_lambda.py:60-77 | a non-dict event gives today; a string event date wins, then a string detail date, otherwise today; raises exactly when a truthy detail that is not a dict is consulted; any other answer is today |
| DailyReportLambda.DetailOf | src/daily_report_lambda.py:73 | `event.get("detail") or {}`: a falsy or missing detail reads as the empty dict |
| DailyReportLambda.NoDateIsToday | src/daily_report_lambda.py:72-77 | an event with neither a date nor a detail gives today |
| DailyReportLambda.ReportPrefix | src/daily_report_lambda.py:26-28 | the prefix always ends with "/"; an empty setting gives "daily-reports/"; otherwise it is the setting with at most one character, a "/", appended |
| DailyReportLambda.PrefixIdempotent | src/daily_report_lambda.py:26-28 | normalising a prefix twice is normalising it once |
| DailyReportLambda.ReportKey | src/daily_report_lambda.py:30 | the key starts with the prefix, ends with ".md" and holds the date between them |
| DailyReportLambda.KeysTellDatesApart | src/daily_report_lambda.py:30 | different dates are archived under different keys |
| DailyReportLambda.S3Client.PutObject | src/daily_report_lambda.py:35-41 | each upload is logged and answered with the client's fixed outcome |
| DailyReportLambda.UploadRun | src/daily_report_lambda.py:14-57 | an empty bucket raises before any upload; otherwise one upload of the report under the key, answering FAILED with the error, or SUCCESS, both with the bucket and key |
| DailyReportLambda.UploadReportToS3 | src/daily_report_lambda.py:14-57 | the method against the client returns what UploadRun specifies and leaves exactly its upload in the log |
| DailyReportLambda.HandlerRun | src/daily_report_lambda.py:80-120 | the answer's date, email result and S3 result are the date selection's, the email's and the upload's; a failed date selection or a failed report build touches neither service and its exception is the answer; an exception from the email ends the run with that exception and no upload; an exception from the upload propagates; an upload happens only after the one email request; both carry the same report |
| DailyReportLambda.LambdaHandler | src/daily_report_lambda.py:80-120 | the method against the two clients returns what HandlerRun specifies and leaves exactly its requests in both logs |

## Left out

- Real AWS effects are not modelled. DynamoDB `scan` and `put_item`, EC2 `reboot_instances`, SES `send_email` and S3 `put_object` are clients with fixed answers and request logs. `src/utils/aws_clients.py`, which builds the boto3 clients, is not part of this model.
- Environment reads and `src/utils/config.py` are not part of this model. The settings are parameters: table name, bucket, prefix, SES sender, SES recipients, and DRY_RUN_ONLY (through `StatusCheck.DryRunOnlyFromEnv`).
- The code reads `SES_RECIPIENTS` (src/reporting/send_email.py:24), while config and the local defaults use `SES_RECIPIENT`. The model takes the value send_email reads.
- `REPORT_BUCKET_NAME` is bound at import time (src/daily_report_lambda.py:6), before the local defaults are set. The model takes the bound value as a parameter.
- Logging and every `print` are left out, as is `src/utils/logging_utils.py`.
- The clock, `uuid4()` and `isoformat()` are left out. The timestamp, the incident id and "today" are opaque string parameters.
- `json.dumps` is left out. The alarm handler's body is a record, not its JSON text.
- `build_daily_report`, `main` and the `__main__` blocks are I/O glue and are left out. This includes writing the sample file to disk. The report builder is a function parameter of `DailyReportLambda.HandlerRun` that answers the report or the exception building it raised.
- `DailyReport.IncidentScan.Scan`: a scan answers a page and never raises. A failing `table.scan`, which propagates out of `build_daily_report`, is modelled only through the builder parameter of `DailyReportLambda.HandlerRun`, which may raise.
- JavaScript numbers are modelled as unbounded integers. `parseInt` returns an IEEE double, which rounds above 2^53 and is Infinity for a long enough digit string; the model's `ParseIntJs` reads every digit string exactly.
- `ParserReadBack.RenderedCount`: stated for every natural; the source's parseInt gives the count back exactly only up to 2^53.
- `ReportReadBack.DailyReportSummaryReadBack`: stated for any figures; with the source's parseInt the read-back is exact only for figures up to 2^53.
- Some parts of the dashboard are left out: `setToday` (the JavaScript clock), `loadReportFromS3` (fetch) and `renderParsedReport` (DOM).
- Character handling is ASCII only: lower and upper case, whitespace and digits. Python's `str.strip()` removes the ASCII whitespace and U+001C..U+001F; JavaScript's `trim()` removes the ASCII whitespace only. Non-ASCII whitespace, which both also remove, is not modelled.
- UTF-8 encoding of the email and S3 bodies is left out. Bodies are `string`.
- Python `repr` of containers inside `str()` is approximated, with no escape sequences inside strings. This only matters for a non-string alarm name.
- JavaScript object keys are a `map`. Prototype-special keys such as `__proto__` are not modelled.
- `EventRouter.DependsOnlyOnAlarmName`: stated for events whose detail is a dict; for other events both sides raise.
- `Counter.MostCommon`: ties are kept in first-occurrence order, as Python's stable sort keeps them; the contract states the multiset and the order by count, and does not state the tie order.
- `DailyReport.SortByCreated`: the contract states a sorted permutation; it does not state stability among equal created_at values.
- `ParserReadBack.SectionMatchIgnoresCase`: stated for a heading and its uppercase form, not for every change of case.
- `BreakdownReadBack.BreakdownsOfBullets`: stated for a run of rendered bullets; it is not composed with the whole daily report to locate the breakdown headings.
- `ReportReadBack.SampleReportOpening`: the sample report's summary read-back is the composition of this lemma with `ReportReadBack.SampleReportText` and `RoundTrip.ReportTextSummary`, not one lemma.
- The incident items the report scan returns, and the sample report's incidents, carry string attributes only, because the renderers read them as text.
- `DailyReport.PageAt`: the scan answers are a finite list, and every scan past its end answers an empty page without LastEvaluatedKey. A table that hands back a LastEvaluatedKey forever, on which the source's loop never stops, cannot be expressed.
- JSON numbers other than integers are not modelled: `Json.Value` has no float case. Real CloudWatch events carry floats such as threshold and period, but none of the fields the code reads is one.
