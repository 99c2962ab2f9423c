/** Alarm classification and target extraction (src/event_router.py). */
module EventRouter {
  import opened Wrappers
  import opened Strings
  import opened Json

  const HIGH_CPU := "EC2_HIGH_CPU"
  const STATUS_CHECK_FAILED := "EC2_STATUS_CHECK_FAILED"
  const UNEXPECTED_STOP := "EC2_UNEXPECTED_STOP"
  const UNKNOWN := "UNKNOWN"

  predicate IsCategory(s: string) {
    s == HIGH_CPU || s == STATUS_CHECK_FAILED || s == UNEXPECTED_STOP || s == UNKNOWN
  }

  /** The classification rules in priority order: a keyword and the category it selects. */
  const RULES: seq<(string, string)> :=
    [("cpu", HIGH_CPU), ("status", STATUS_CHECK_FAILED), ("stop", UNEXPECTED_STOP)]

  /** Reference reading of the classifier: the first rule whose keyword occurs wins. */
  function FirstMatch(rules: seq<(string, string)>, name: string): string {
    if rules == [] then UNKNOWN
    else if Contains(name, rules[0].0) then rules[0].1
    else FirstMatch(rules[1..], name)
  }

  /** The category of a lowercased alarm name. */
  function Classify(name: string): (r: string)
    ensures IsCategory(r)
  {
    if Contains(name, "cpu") then HIGH_CPU
    else if Contains(name, "status") then STATUS_CHECK_FAILED
    else if Contains(name, "stop") then UNEXPECTED_STOP
    else UNKNOWN
  }

  /** `event.get("detail", {})`. */
  function Detail(event: Value): Result<Value> {
    Get(event, "detail", Object([]))
  }

  /** `str(detail.get("alarmName", "")).lower()`. */
  function AlarmName(event: Value): (r: Result<string>)
    ensures r.Raised? <==> !event.Object? || !Detail(event).value.Object?
  {
    var detail :- Detail(event);
    var name :- Get(detail, "alarmName", Str(""));
    Ok(Lower(PyStr(name)))
  }

  /** identify_event_type: one of the four categories, chosen from the alarm name alone.
      The `.get` calls raise when the event or its detail is not a dict. */
  function IdentifyEventType(event: Value): (r: Result<string>)
    ensures r.Raised? <==> AlarmName(event).Raised?
    ensures r.Ok? ==> IsCategory(r.value)
  {
    var name :- AlarmName(event);
    Ok(Classify(name))
  }

  /** The if-chain of the classifier is the first-match rule over RULES. */
  lemma ClassifyIsFirstMatch(name: string)
    ensures Classify(name) == FirstMatch(RULES, name)
  {
    var rest := RULES[1..];
    assert rest == [("status", STATUS_CHECK_FAILED), ("stop", UNEXPECTED_STOP)];
    assert rest[1..] == [("stop", UNEXPECTED_STOP)];
    assert rest[1..][1..] == [];
    assert FirstMatch(rest[1..], name) == if Contains(name, "stop") then UNEXPECTED_STOP else UNKNOWN;
    assert FirstMatch(rest, name) ==
      if Contains(name, "status") then STATUS_CHECK_FAILED else FirstMatch(rest[1..], name);
  }

  /** identify_event_type is first-match-wins over the fixed rule order. */
  lemma IdentifyIsFirstMatch(event: Value)
    requires AlarmName(event).Ok?
    ensures IdentifyEventType(event) == Ok(FirstMatch(RULES, AlarmName(event).value))
  {
    ClassifyIsFirstMatch(AlarmName(event).value);
  }

  /** "cpu" is checked first: an alarm name holding it is HighCpu, whatever else it holds. */
  lemma CpuTakesPriority(event: Value)
    requires AlarmName(event).Ok? && Contains(AlarmName(event).value, "cpu")
    ensures IdentifyEventType(event) == Ok(HIGH_CPU)
  {
  }

  /** "status" beats "stop"; "stop" alone gives UnexpectedStop; nothing gives Unknown. */
  lemma PriorityOrder(name: string)
    ensures !Contains(name, "cpu") && Contains(name, "status") ==> Classify(name) == STATUS_CHECK_FAILED
    ensures !Contains(name, "cpu") && !Contains(name, "status") && Contains(name, "stop") ==>
              Classify(name) == UNEXPECTED_STOP
    ensures !Contains(name, "cpu") && !Contains(name, "status") && !Contains(name, "stop") ==>
              Classify(name) == UNKNOWN
  {
  }

  /** Builds the minimal event that carries an alarm name. */
  function EventNamed(name: Value): Value {
    Object([("detail", Object([("alarmName", name)]))])
  }

  lemma LowerIdempotent(s: string)
    ensures Lower(Lower(s)) == Lower(s)
  {
  }

  /** Matching ignores case: an alarm name and its lowercase form classify alike. */
  lemma CaseInsensitive(s: string)
    ensures IdentifyEventType(EventNamed(Str(s))) == IdentifyEventType(EventNamed(Str(Lower(s))))
  {
    LowerIdempotent(s);
  }

  /** Only `detail.alarmName` matters: events agreeing on it classify alike. */
  lemma DependsOnlyOnAlarmName(e1: Value, e2: Value)
    requires e1.Object? && e2.Object?
    requires Detail(e1).value.Object? && Detail(e2).value.Object?
    requires Lookup(Detail(e1).value.fields, "alarmName") == Lookup(Detail(e2).value.fields, "alarmName")
    ensures IdentifyEventType(e1) == IdentifyEventType(e2)
  {
  }

  /** A missing alarm name reads as "" and matches no rule. */
  lemma MissingNameIsUnknown(event: Value)
    requires event.Object? && Detail(event).value.Object?
    requires Lookup(Detail(event).value.fields, "alarmName").None?
    ensures IdentifyEventType(event) == Ok(UNKNOWN)
  {
  }

  // ---- extract_instance_id ----

  /** `event.get("detail", {}).get("configuration", {}).get("metrics", [])`. */
  function MetricsOf(event: Value): Result<Value> {
    var detail :- Detail(event);
    var configuration :- Get(detail, "configuration", Object([]));
    Get(configuration, "metrics", List([]))
  }

  /** `metrics[0].get("metricStat", {}).get("metric", {}).get("dimensions", [])`, iterated. */
  function FirstMetricDimensions(metrics: Value): Result<seq<Value>> {
    var first :- First(metrics);
    var stat :- Get(first, "metricStat", Object([]));
    var metric :- Get(stat, "metric", Object([]));
    var dimensions :- Get(metric, "dimensions", List([]));
    Iterate(dimensions)
  }

  /** A dimension dict whose "name" is exactly "InstanceId". */
  predicate NamesInstance(d: Value) {
    d.Object? && Lookup(d.fields, "name") == Some(Str("InstanceId"))
  }

  /** `d.get("value")` of a dimension dict. */
  function DimensionValue(d: Value): Value
    requires d.Object?
  {
    Lookup(d.fields, "value").GetOr(Null)
  }

  /** The `for d in dimensions` search: the value of the first InstanceId dimension, None when
      there is none; a non-dict element reached before it raises AttributeError. */
  function ScanDimensions(dims: seq<Value>): Result<Value> {
    if dims == [] then Ok(Null)
    else
      var name :- Get(dims[0], "name", Null);
      if name == Str("InstanceId") then Ok(DimensionValue(dims[0]))
      else ScanDimensions(dims[1..])
  }

  /** What extract_instance_id returns for a given metrics value; any exception becomes None. */
  function InstanceIdFromMetrics(metrics: Value): Value {
    if !Truthy(metrics) then Null
    else
      match FirstMetricDimensions(metrics)
      case Raised(_) => Null
      case Ok(dims) =>
        match ScanDimensions(dims)
        case Raised(_) => Null
        case Ok(v) => v
  }

  /** What extract_instance_id returns for an event (None is Null). */
  function InstanceIdOf(event: Value): Value {
    match MetricsOf(event)
    case Raised(_) => Null
    case Ok(metrics) => InstanceIdFromMetrics(metrics)
  }

  /** extract_instance_id: its navigation and its loop over the first metric's dimensions. */
  method ExtractInstanceId(event: Value) returns (id: Value)
    ensures id == InstanceIdOf(event)
  {
    var metrics := MetricsOf(event);
    if metrics.Raised? || !Truthy(metrics.value) {
      return Null;
    }
    var dimensions := FirstMetricDimensions(metrics.value);
    if dimensions.Raised? {
      return Null;
    }
    var dims := dimensions.value;
    for i := 0 to |dims|
      invariant ScanDimensions(dims) == ScanDimensions(dims[i..])
    {
      var d := dims[i];
      assert dims[i..][1..] == dims[i + 1..];
      if !d.Object? {
        return Null;
      }
      if Lookup(d.fields, "name") == Some(Str("InstanceId")) {
        return DimensionValue(d);
      }
    }
    return Null;
  }

  /** A missing or empty metrics list gives None. */
  lemma NoMetricsNoInstance(event: Value)
    requires MetricsOf(event) == Ok(List([]))
    ensures InstanceIdOf(event) == Null
  {
  }

  /** Only the first metric is inspected: later metrics never change the answer. */
  lemma OnlyFirstMetric(m: Value, rest1: seq<Value>, rest2: seq<Value>)
    ensures InstanceIdFromMetrics(List([m] + rest1)) == InstanceIdFromMetrics(List([m] + rest2))
  {
  }

  /** The first dimension named InstanceId wins, when every dimension before it is a dict. */
  lemma {:induction false} FirstInstanceDimensionWins(dims: seq<Value>, k: nat)
    requires k < |dims| && NamesInstance(dims[k])
    requires forall j :: 0 <= j < k ==> dims[j].Object? && !NamesInstance(dims[j])
    ensures ScanDimensions(dims) == Ok(DimensionValue(dims[k]))
  {
    if k > 0 {
      FirstInstanceDimensionWins(dims[1..], k - 1);
    }
  }

  /** With no InstanceId dimension among dicts, the answer is None. */
  lemma {:induction false} NoInstanceDimension(dims: seq<Value>)
    requires forall j :: 0 <= j < |dims| ==> dims[j].Object? && !NamesInstance(dims[j])
    ensures ScanDimensions(dims) == Ok(Null)
  {
    if dims != [] {
      NoInstanceDimension(dims[1..]);
    }
  }

  /** A non-dict dimension reached before any match raises, which the function turns into None. */
  lemma {:induction false} NonDictDimensionRaises(dims: seq<Value>, k: nat)
    requires k < |dims| && !dims[k].Object?
    requires forall j :: 0 <= j < k ==> dims[j].Object? && !NamesInstance(dims[j])
    ensures ScanDimensions(dims).Raised?
  {
    if k > 0 {
      NonDictDimensionRaises(dims[1..], k - 1);
    }
  }

  /** The sample CloudWatch alarm state-change event (scripts/simulate_event.py). */
  function SampleEvent(): Value {
    Object(SampleEnvelope() + [("detail", SampleDetail())])
  }

  /** The envelope fields before `detail`. */
  function SampleEnvelope(): seq<(string, Value)> {
    [ ("version", Str("0")),
      ("id", Str("abcd-efgh-1234-5678")),
      ("detail-type", Str("CloudWatch Alarm State Change")),
      ("source", Str("aws.cloudwatch")),
      ("account", Str("123456789012")),
      ("time", Str("2025-01-01T00:00:00Z")),
      ("region", Str("ap-southeast-2")),
      ("resources", List([Str("arn:aws:cloudwatch:ap-southeast-2:123456789012:alarm:StatusCheckFailed")]))
    ]
  }

  lemma SampleEnvelopeKeys()
    ensures forall k :: 0 <= k < |SampleEnvelope()| ==> SampleEnvelope()[k].0 != "detail"
  {
  }

  /** A key absent from the front fields is found in the field appended after them. */
  lemma {:induction false} LookupAfter(front: seq<(string, Value)>, key: string, v: Value)
    requires forall k :: 0 <= k < |front| ==> front[k].0 != key
    ensures Lookup(front + [(key, v)], key) == Some(v)
  {
    if front != [] {
      assert (front + [(key, v)])[1..] == front[1..] + [(key, v)];
      LookupAfter(front[1..], key, v);
    }
  }

  function SampleDetail(): Value {
    Object([
      ("alarmName", Str("StatusCheckFailed")),
      ("state", Object([
        ("value", Str("ALARM")),
        ("reason", Str("StatusCheckFailed > 0 for 1 datapoints..."))])),
      ("configuration", Object([("metrics", List([SampleMetric()]))]))
    ])
  }

  function SampleMetric(): Value {
    Object([("metricStat", SampleMetricStat())])
  }

  function SampleMetricStat(): Value {
    Object([("metric", SampleMetricBody()), ("period", Int(60)), ("stat", Str("Minimum"))])
  }

  function SampleMetricBody(): Value {
    Object([
      ("namespace", Str("AWS/EC2")),
      ("metricName", Str("StatusCheckFailed")),
      ("dimensions", List([SampleDimension()]))
    ])
  }

  function SampleDimension(): Value {
    Object([("name", Str("InstanceId")), ("value", Str("i-1234567890abcdef0"))])
  }

  lemma SampleDetailFound()
    ensures Detail(SampleEvent()) == Ok(SampleDetail())
  {
    SampleEnvelopeKeys();
    LookupAfter(SampleEnvelope(), "detail", SampleDetail());
  }

  lemma {:induction false} LookupAt(fields: seq<(string, Value)>, key: string, k: nat)
    requires k < |fields| && fields[k].0 == key
    requires forall j :: 0 <= j < k ==> fields[j].0 != key
    ensures Lookup(fields, key) == Some(fields[k].1)
  {
    if k > 0 {
      LookupAt(fields[1..], key, k - 1);
    }
  }

  lemma LowerSampleName()
    ensures Lower("StatusCheckFailed") == "statuscheckfailed"
  {
    var name, lowered := "StatusCheckFailed", "statuscheckfailed";
    LowerShape(name);
    assert forall i :: 0 <= i < |name| ==> Lower(name)[i] == lowered[i];
  }

  lemma SampleAlarmName()
    ensures AlarmName(SampleEvent()) == Ok("statuscheckfailed")
  {
    SampleDetailFound();
    LowerSampleName();
    assert Get(SampleDetail(), "alarmName", Str("")) == Ok(Str("StatusCheckFailed"));
  }

  lemma ClassifySampleName()
    ensures Classify("statuscheckfailed") == STATUS_CHECK_FAILED
  {
    NotContained("statuscheckfailed", "cpu", 1);
    assert "status" <= "statuscheckfailed";
  }

  /** The sample event classifies as a failed status check. */
  lemma SampleEventClassified()
    ensures IdentifyEventType(SampleEvent()) == Ok(STATUS_CHECK_FAILED)
  {
    SampleAlarmName();
    ClassifySampleName();
  }

  lemma SampleMetrics()
    ensures MetricsOf(SampleEvent()) == Ok(List([SampleMetric()]))
  {
    SampleDetailFound();
    LookupAt(SampleDetail().fields, "configuration", 2);
  }

  lemma SampleDimensions()
    ensures FirstMetricDimensions(List([SampleMetric()])) == Ok([SampleDimension()])
  {
    assert Get(SampleMetric(), "metricStat", Object([])) == Ok(SampleMetricStat());
    assert Get(SampleMetricStat(), "metric", Object([])) == Ok(SampleMetricBody());
    LookupAt(SampleMetricBody().fields, "dimensions", 2);
  }

  /** The sample event's target is i-1234567890abcdef0. */
  lemma SampleEventInstance()
    ensures InstanceIdOf(SampleEvent()) == Str("i-1234567890abcdef0")
  {
    SampleMetrics();
    SampleDimensions();
    assert NamesInstance(SampleDimension());
    FirstInstanceDimensionWins([SampleDimension()], 0);
  }

  /** A keyword with a letter that never occurs in the name does not occur in it. */
  lemma {:induction false} NotContained(s: string, sub: string, j: nat)
    requires j < |sub| && sub[j] !in s
    ensures !Contains(s, sub)
    decreases |s|
  {
    if j < |s| {
      assert s[j] != sub[j];
    }
    if |s| > 0 {
      assert sub[j] !in s[1..];
      NotContained(s[1..], sub, j);
    }
  }
}
