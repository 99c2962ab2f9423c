/** The unexpected-stop handler (src/remediation/ec2_unexpected_stop.py): a fixed answer;
    no start of the instance is attempted. */
module UnexpectedStop {
  import opened Wrappers
  import opened Json
  import opened Outcomes

  const MESSAGE := "Simulated handling for EC2 unexpected stop"

  function Handle(event: Value): (r: Outcome)
    ensures r.remediationType == "EC2_UNEXPECTED_STOP" && r.action == "NOOP"
    ensures r.message == MESSAGE && r.instanceId.None?
  {
    Outcome("EC2_UNEXPECTED_STOP", "NOOP", MESSAGE, None)
  }

  /** The event is not consulted. */
  lemma IgnoresEvent(e1: Value, e2: Value)
    ensures Handle(e1) == Handle(e2)
  {
  }
}
