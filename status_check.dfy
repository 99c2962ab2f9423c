/** The status-check handler (src/remediation/ec2_status_check.py): a dry-run reboot first,
    a real reboot only when the dry-run passed and DRY_RUN_ONLY is off. The EC2 API is a
    client object that logs every request and answers with fixed outcomes. */
module StatusCheck {
  import opened Wrappers
  import opened Strings
  import opened Json
  import opened Outcomes

  const REMEDIATION_TYPE := "EC2_STATUS_CHECK_FAILED"
  const DRY_RUN_OPERATION := "DryRunOperation"

  /** `DRY_RUN_ONLY`: the environment value (default "true") lowercased equals "true". */
  function DryRunOnlyFromEnv(env: Option<string>): (b: bool)
    ensures env.None? ==> b
    ensures env.Some? ==>
      (b <==> (|env.value| == 4 && LowerChar(env.value[0]) == 't' && LowerChar(env.value[1]) == 'r'
               && LowerChar(env.value[2]) == 'u' && LowerChar(env.value[3]) == 'e'))
  {
    LowerShape(env.GetOr("true"));
    Lower(env.GetOr("true")) == "true"
  }

  /** One `reboot_instances` request. */
  datatype Call = Reboot(instanceIds: seq<Value>, dryRun: bool)

  /** The EC2 API for one invocation: each request is logged in `calls`; a dry-run answers
      with `dryRunError` (the text of the exception it raises, or None), a real reboot with
      `rebootError`. */
  class Ec2Client {
    var calls: seq<Call>
    const dryRunError: Option<string>
    const rebootError: Option<string>

    constructor (dryRunError: Option<string>, rebootError: Option<string>)
      ensures this.dryRunError == dryRunError && this.rebootError == rebootError
      ensures calls == []
    {
      this.dryRunError := dryRunError;
      this.rebootError := rebootError;
      calls := [];
    }

    method RebootInstances(instanceIds: seq<Value>, dryRun: bool) returns (error: Option<string>)
      modifies this
      ensures calls == old(calls) + [Reboot(instanceIds, dryRun)]
      ensures error == if dryRun then dryRunError else rebootError
    {
      calls := calls + [Reboot(instanceIds, dryRun)];
      error := if dryRun then dryRunError else rebootError;
    }
  }

  /** What one invocation answers and which EC2 requests it makes, in order. */
  datatype Run<T> = Run(result: Result<T>, calls: seq<Call>)

  /** The dry-run counts as passed when it raised nothing or raised DryRunOperation. */
  predicate DryRunPasses(dryRunError: Option<string>) {
    dryRunError.None? || Contains(dryRunError.value, DRY_RUN_OPERATION)
  }

  /** The safety rule on a call log: every real reboot is preceded by a dry-run of the
      same instances. */
  predicate RebootsAreRehearsed(calls: seq<Call>) {
    forall k :: 0 <= k < |calls| && !calls[k].dryRun ==>
      exists j :: 0 <= j < k && calls[j] == Reboot(calls[k].instanceIds, true)
  }

  predicate HasRealReboot(calls: seq<Call>) {
    exists k :: 0 <= k < |calls| && !calls[k].dryRun
  }

  /** `parsed_event.get("instance_id")`. */
  function InstanceOf(parsedEvent: Value): Result<Value> {
    Get(parsedEvent, "instance_id", Null)
  }

  predicate HasInstance(parsedEvent: Value) {
    InstanceOf(parsedEvent).Ok? && Truthy(InstanceOf(parsedEvent).value)
  }

  /** The specification of `handle` on the client's fixed answers. */
  function HandleRun(parsedEvent: Value, dryRunError: Option<string>, rebootError: Option<string>,
                     dryRunOnly: bool): (r: Run<Outcome>)
    ensures |r.calls| <= 2
    ensures RebootsAreRehearsed(r.calls)
    ensures r.calls != [] ==> InstanceOf(parsedEvent).Ok?
    ensures r.calls != [] ==>
      forall k :: 0 <= k < |r.calls| ==> r.calls[k].instanceIds == [InstanceOf(parsedEvent).value]
    ensures r.calls == [] <==> !HasInstance(parsedEvent)
    ensures HasRealReboot(r.calls) <==>
      HasInstance(parsedEvent) && DryRunPasses(dryRunError) && !dryRunOnly
    ensures r.result.Ok? ==> r.result.value.remediationType == REMEDIATION_TYPE
    ensures r.result.Raised? <==>
      InstanceOf(parsedEvent).Raised? || (HasRealReboot(r.calls) && rebootError.Some?)
  {
    match InstanceOf(parsedEvent)
    case Raised(e) => Run(Raised(e), [])
    case Ok(id) =>
      if !Truthy(id) then
        Run(Ok(Outcome(REMEDIATION_TYPE, "SKIP", "No instance ID found in event", None)), [])
      else
        var rehearsal := Reboot([id], true);
        if !DryRunPasses(dryRunError) then
          Run(Ok(Outcome(REMEDIATION_TYPE, "FAILED_DRY_RUN", dryRunError.value, None)), [rehearsal])
        else if dryRunOnly then
          Run(Ok(Outcome(REMEDIATION_TYPE, "WOULD_REBOOT",
                         "DryRun succeeded; real reboot skipped because DRY_RUN_ONLY=true", Some(id))),
              [rehearsal])
        else
          var log := [rehearsal, Reboot([id], false)];
          assert log[0] == Reboot(log[1].instanceIds, true);
          if rebootError.Some? then Run(Raised(rebootError.value), log)
          else
            Run(Ok(Outcome(REMEDIATION_TYPE, "REBOOT", "EC2 instance rebooted due to StatusCheckFailed",
                           Some(id))),
                log)
  }

  /** `handle` against the client. */
  method Handle(parsedEvent: Value, ec2: Ec2Client, dryRunOnly: bool) returns (r: Result<Outcome>)
    modifies ec2
    ensures r == HandleRun(parsedEvent, ec2.dryRunError, ec2.rebootError, dryRunOnly).result
    ensures ec2.calls ==
      old(ec2.calls) + HandleRun(parsedEvent, ec2.dryRunError, ec2.rebootError, dryRunOnly).calls
  {
    match InstanceOf(parsedEvent)
    case Raised(e) =>
      return Raised(e);
    case Ok(id) =>
      if !Truthy(id) {
        return Ok(Outcome(REMEDIATION_TYPE, "SKIP", "No instance ID found in event", None));
      }
      var dryRunError := ec2.RebootInstances([id], true);
      if dryRunError.Some? && !Contains(dryRunError.value, DRY_RUN_OPERATION) {
        return Ok(Outcome(REMEDIATION_TYPE, "FAILED_DRY_RUN", dryRunError.value, None));
      }
      if dryRunOnly {
        return Ok(Outcome(REMEDIATION_TYPE, "WOULD_REBOOT",
                          "DryRun succeeded; real reboot skipped because DRY_RUN_ONLY=true", Some(id)));
      }
      var rebootError := ec2.RebootInstances([id], false);
      if rebootError.Some? {
        return Raised(rebootError.value);
      }
      return Ok(Outcome(REMEDIATION_TYPE, "REBOOT", "EC2 instance rebooted due to StatusCheckFailed",
                        Some(id)));
  }

  /** Without a truthy instance id the handler answers SKIP and the client sees nothing. */
  lemma SkipWithoutInstance(parsedEvent: Value, dryRunError: Option<string>,
                            rebootError: Option<string>, dryRunOnly: bool)
    requires InstanceOf(parsedEvent).Ok? && !Truthy(InstanceOf(parsedEvent).value)
    ensures HandleRun(parsedEvent, dryRunError, rebootError, dryRunOnly) ==
      Run(Ok(Outcome(REMEDIATION_TYPE, "SKIP", "No instance ID found in event", None)), [])
  {
  }

  /** A dry-run error without DryRunOperation in its text ends the run with FAILED_DRY_RUN,
      carrying the error text, after the single dry-run request. */
  lemma FailedDryRunStops(parsedEvent: Value, error: string, rebootError: Option<string>,
                          dryRunOnly: bool)
    requires HasInstance(parsedEvent) && !Contains(error, DRY_RUN_OPERATION)
    ensures var r := HandleRun(parsedEvent, Some(error), rebootError, dryRunOnly);
      r.result == Ok(Outcome(REMEDIATION_TYPE, "FAILED_DRY_RUN", error, None)) &&
      r.calls == [Reboot([InstanceOf(parsedEvent).value], true)]
  {
  }

  /** A passed dry-run under DRY_RUN_ONLY answers WOULD_REBOOT with the instance id. */
  lemma DryRunOnlyWouldReboot(parsedEvent: Value, dryRunError: Option<string>,
                              rebootError: Option<string>)
    requires HasInstance(parsedEvent) && DryRunPasses(dryRunError)
    ensures var r := HandleRun(parsedEvent, dryRunError, rebootError, true);
      r.result.Ok? && r.result.value.action == "WOULD_REBOOT" &&
      r.result.value.instanceId == Some(InstanceOf(parsedEvent).value) &&
      r.calls == [Reboot([InstanceOf(parsedEvent).value], true)]
  {
  }

  /** A passed dry-run with DRY_RUN_ONLY off issues exactly one real reboot, and an error
      from it propagates uncaught. */
  lemma RealRebootOnce(parsedEvent: Value, dryRunError: Option<string>, rebootError: Option<string>)
    requires HasInstance(parsedEvent) && DryRunPasses(dryRunError)
    ensures var r := HandleRun(parsedEvent, dryRunError, rebootError, false);
      var id := InstanceOf(parsedEvent).value;
      r.calls == [Reboot([id], true), Reboot([id], false)] &&
      (rebootError.None? ==> r.result == Ok(Outcome(REMEDIATION_TYPE, "REBOOT",
                                               "EC2 instance rebooted due to StatusCheckFailed", Some(id)))) &&
      (rebootError.Some? ==> r.result == Raised(rebootError.value))
  {
  }
}
