/** The dict every remediation handler returns: remediation_type, action, message and, for
    the status-check handler's WOULD_REBOOT and REBOOT answers, instance_id. */
module Outcomes {
  import opened Wrappers
  import opened Json

  datatype Outcome = Outcome(
    remediationType: string,
    action: string,
    message: string,
    instanceId: Option<Value>)
}
