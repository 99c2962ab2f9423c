/** The high-CPU handler (src/remediation/ec2_high_cpu.py): a fixed answer, no EC2 call. */
module HighCpu {
  import opened Wrappers
  import opened Json
  import opened Outcomes

  const MESSAGE := "Simulated handling for EC2 high CPU alarm"

  function Handle(event: Value): (r: Outcome)
    ensures r.remediationType == "EC2_HIGH_CPU" && r.action == "NOOP" && r.message == MESSAGE
    ensures r.instanceId.None?
  {
    Outcome("EC2_HIGH_CPU", "NOOP", MESSAGE, None)
  }

  /** The event is not consulted. */
  lemma IgnoresEvent(e1: Value, e2: Value)
    ensures Handle(e1) == Handle(e2)
  {
  }
}
