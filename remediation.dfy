/** Remediation dispatch (src/remediation/__init__.py): exact string comparison of the event
    type selects one of the three handlers; anything else is answered UNKNOWN / SKIP. */
module Remediation {
  import opened Wrappers
  import opened Json
  import opened Outcomes
  import HighCpu
  import UnexpectedStop
  import StatusCheck

  const UNKNOWN_PREFIX := "No remediation implemented for event type: "

  predicate IsHandled(eventType: string) {
    eventType == "EC2_HIGH_CPU" || eventType == "EC2_STATUS_CHECK_FAILED"
    || eventType == "EC2_UNEXPECTED_STOP"
  }

  /** The specification of `run_remediation` on the EC2 client's fixed answers. */
  function Dispatch(eventType: string, parsedEvent: Value, dryRunError: Option<string>,
                    rebootError: Option<string>, dryRunOnly: bool): (r: StatusCheck.Run<Outcome>)
    ensures eventType == "EC2_HIGH_CPU" ==> r == StatusCheck.Run(Ok(HighCpu.Handle(parsedEvent)), [])
    ensures eventType == "EC2_STATUS_CHECK_FAILED" ==>
      r == StatusCheck.HandleRun(parsedEvent, dryRunError, rebootError, dryRunOnly)
    ensures eventType == "EC2_UNEXPECTED_STOP" ==>
      r == StatusCheck.Run(Ok(UnexpectedStop.Handle(parsedEvent)), [])
    ensures !IsHandled(eventType) ==>
      r == StatusCheck.Run(Ok(Outcome("UNKNOWN", "SKIP", UNKNOWN_PREFIX + eventType, None)), [])
  {
    if eventType == "EC2_HIGH_CPU" then StatusCheck.Run(Ok(HighCpu.Handle(parsedEvent)), [])
    else if eventType == "EC2_STATUS_CHECK_FAILED" then
      StatusCheck.HandleRun(parsedEvent, dryRunError, rebootError, dryRunOnly)
    else if eventType == "EC2_UNEXPECTED_STOP" then
      StatusCheck.Run(Ok(UnexpectedStop.Handle(parsedEvent)), [])
    else
      StatusCheck.Run(Ok(Outcome("UNKNOWN", "SKIP", UNKNOWN_PREFIX + eventType, None)), [])
  }

  /** `run_remediation` against the client. */
  method RunRemediation(eventType: string, parsedEvent: Value, ec2: StatusCheck.Ec2Client,
                        dryRunOnly: bool) returns (r: Result<Outcome>)
    modifies ec2
    ensures r == Dispatch(eventType, parsedEvent, ec2.dryRunError, ec2.rebootError, dryRunOnly).result
    ensures ec2.calls == old(ec2.calls) +
      Dispatch(eventType, parsedEvent, ec2.dryRunError, ec2.rebootError, dryRunOnly).calls
  {
    if eventType == "EC2_HIGH_CPU" {
      return Ok(HighCpu.Handle(parsedEvent));
    }
    if eventType == "EC2_STATUS_CHECK_FAILED" {
      r := StatusCheck.Handle(parsedEvent, ec2, dryRunOnly);
      return;
    }
    if eventType == "EC2_UNEXPECTED_STOP" {
      return Ok(UnexpectedStop.Handle(parsedEvent));
    }
    return Ok(Outcome("UNKNOWN", "SKIP", UNKNOWN_PREFIX + eventType, None));
  }

  /** The answer names the event type it handled, or UNKNOWN; only the status-check handler
      talks to EC2, and every log it leaves obeys the dry-run-first rule. */
  lemma DispatchShape(eventType: string, parsedEvent: Value, dryRunError: Option<string>,
                      rebootError: Option<string>, dryRunOnly: bool)
    ensures var r := Dispatch(eventType, parsedEvent, dryRunError, rebootError, dryRunOnly);
      (r.result.Ok? ==> r.result.value.remediationType ==
                          (if IsHandled(eventType) then eventType else "UNKNOWN")) &&
      (r.calls != [] ==> eventType == "EC2_STATUS_CHECK_FAILED") &&
      StatusCheck.RebootsAreRehearsed(r.calls) && |r.calls| <= 2 &&
      (r.result.Raised? ==> eventType == "EC2_STATUS_CHECK_FAILED")
  {
  }

  /** Matching is case-sensitive: a lowercased category is not handled. */
  lemma CaseSensitive(parsedEvent: Value, dryRunError: Option<string>, rebootError: Option<string>,
                      dryRunOnly: bool)
    ensures Dispatch("ec2_high_cpu", parsedEvent, dryRunError, rebootError, dryRunOnly).result.value
      == Outcome("UNKNOWN", "SKIP", UNKNOWN_PREFIX + "ec2_high_cpu", None)
  {
    assert "ec2_high_cpu"[0] != "EC2_HIGH_CPU"[0];
    assert "ec2_high_cpu"[0] != "EC2_STATUS_CHECK_FAILED"[0];
    assert "ec2_high_cpu"[0] != "EC2_UNEXPECTED_STOP"[0];
  }
}
