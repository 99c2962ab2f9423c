/** The alarm Lambda's entry point (src/lambda_handler.py): extract the instance id,
    classify the event, dispatch to a remediation and answer 200 with both. Nothing is
    persisted. The response body is kept as a record rather than its JSON text. */
module LambdaHandler {
  import opened Wrappers
  import opened Json
  import opened Outcomes
  import EventRouter
  import StatusCheck
  import Remediation

  datatype Body = Body(eventType: string, remediation: Outcome)
  datatype Response = Response(statusCode: int, body: Body)

  /** `{"raw": event, "instance_id": extract_instance_id(event)}`. */
  function ParsedEvent(event: Value, instanceId: Value): (p: Value)
    ensures StatusCheck.InstanceOf(p) == Ok(instanceId)
    ensures Get(p, "raw", Null) == Ok(event)
  {
    var fields := [("raw", event), ("instance_id", instanceId)];
    assert fields[0].0[0] != "instance_id"[0];
    assert Lookup(fields[1..], "instance_id") == Some(instanceId);
    Object(fields)
  }

  /** The specification of `lambda_handler` on the EC2 client's fixed answers. */
  function HandlerRun(event: Value, dryRunError: Option<string>, rebootError: Option<string>,
                      dryRunOnly: bool): (r: StatusCheck.Run<Response>)
    ensures r.result.Ok? ==> r.result.value.statusCode == 200
    ensures r.result.Ok? ==> EventRouter.IdentifyEventType(event) == Ok(r.result.value.body.eventType)
    ensures r.result.Ok? ==>
      Remediation.Dispatch(r.result.value.body.eventType,
                           ParsedEvent(event, EventRouter.InstanceIdOf(event)),
                           dryRunError, rebootError, dryRunOnly)
        == StatusCheck.Run(Ok(r.result.value.body.remediation), r.calls)
    ensures EventRouter.IdentifyEventType(event).Raised? ==> r.result.Raised? && r.calls == []
    ensures EventRouter.IdentifyEventType(event).Ok? ==>
      var run := Remediation.Dispatch(EventRouter.IdentifyEventType(event).value,
                                      ParsedEvent(event, EventRouter.InstanceIdOf(event)),
                                      dryRunError, rebootError, dryRunOnly);
      r.calls == run.calls && (run.result.Raised? ==> r.result == Raised(run.result.error))
    ensures StatusCheck.RebootsAreRehearsed(r.calls) && |r.calls| <= 2
  {
    var parsed := ParsedEvent(event, EventRouter.InstanceIdOf(event));
    match EventRouter.IdentifyEventType(event)
    case Raised(e) => StatusCheck.Run(Raised(e), [])
    case Ok(eventType) =>
      var run := Remediation.Dispatch(eventType, parsed, dryRunError, rebootError, dryRunOnly);
      Remediation.DispatchShape(eventType, parsed, dryRunError, rebootError, dryRunOnly);
      match run.result
      case Raised(e) => StatusCheck.Run(Raised(e), run.calls)
      case Ok(remediation) => StatusCheck.Run(Ok(Response(200, Body(eventType, remediation))), run.calls)
  }

  /** `lambda_handler` against the client; `context` is unused and omitted. */
  method Handle(event: Value, ec2: StatusCheck.Ec2Client, dryRunOnly: bool) returns (r: Result<Response>)
    modifies ec2
    ensures r == HandlerRun(event, ec2.dryRunError, ec2.rebootError, dryRunOnly).result
    ensures ec2.calls == old(ec2.calls) +
      HandlerRun(event, ec2.dryRunError, ec2.rebootError, dryRunOnly).calls
  {
    var instanceId := EventRouter.ExtractInstanceId(event);
    var parsed := ParsedEvent(event, instanceId);
    var eventType :- EventRouter.IdentifyEventType(event);
    var remediation :- Remediation.RunRemediation(eventType, parsed, ec2, dryRunOnly);
    return Ok(Response(200, Body(eventType, remediation)));
  }

  /** The sample alarm from the simulator, with the dry-run answering DryRunOperation and
      DRY_RUN_ONLY on: the status-check handler rehearses a reboot of i-1234567890abcdef0 and
      answers WOULD_REBOOT. */
  lemma SampleWouldReboot(dryRunMessage: string, rebootError: Option<string>)
    requires StatusCheck.DryRunPasses(Some(dryRunMessage))
    ensures var r := HandlerRun(EventRouter.SampleEvent(), Some(dryRunMessage), rebootError, true);
      var id := Str("i-1234567890abcdef0");
      r.result.Ok? && r.result.value.body.eventType == "EC2_STATUS_CHECK_FAILED" &&
      r.result.value.body.remediation.action == "WOULD_REBOOT" &&
      r.result.value.body.remediation.instanceId == Some(id) &&
      r.calls == [StatusCheck.Reboot([id], true)]
  {
    var event := EventRouter.SampleEvent();
    var id := Str("i-1234567890abcdef0");
    EventRouter.SampleEventClassified();
    EventRouter.SampleEventInstance();
    var parsed := ParsedEvent(event, id);
    StatusCheck.DryRunOnlyWouldReboot(parsed, Some(dryRunMessage), rebootError);
    var run := StatusCheck.HandleRun(parsed, Some(dryRunMessage), rebootError, true);
    assert Remediation.Dispatch(EventRouter.STATUS_CHECK_FAILED, parsed, Some(dryRunMessage),
                                rebootError, true) == run;
  }
}
