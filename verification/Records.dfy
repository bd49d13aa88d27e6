/** Values of the CI store that several protocols share. */
module Records {
  import opened Wrappers
  import opened Text

  datatype RunStatus =
    | Pending | Running | Succeeded | Failed | TimedOut | Errored | Skipped | Cancelled

  /** A status a run can still leave. */
  predicate Active(status: RunStatus) {
    status.Pending? || status.Running?
  }

  function StatusName(status: RunStatus): string {
    match status
    case Pending => "pending"
    case Running => "running"
    case Succeeded => "success"
    case Failed => "failure"
    case TimedOut => "timeout"
    case Errored => "error"
    case Skipped => "skipped"
    case Cancelled => "cancelled"
  }

  function StatusFromName(name: string): Option<RunStatus> {
    if name == "pending" then Some(Pending)
    else if name == "running" then Some(Running)
    else if name == "success" then Some(Succeeded)
    else if name == "failure" then Some(Failed)
    else if name == "timeout" then Some(TimedOut)
    else if name == "error" then Some(Errored)
    else if name == "skipped" then Some(Skipped)
    else if name == "cancelled" then Some(Cancelled)
    else None
  }

  lemma StatusIff(name: string, status: RunStatus)
    ensures StatusFromName(name) == Some(status) <==> name == StatusName(status)
  {
  }

  datatype StepResult = StepResult(name: Bytes, exitCode: I32, timedOut: bool, truncated: bool)

  predicate Good(step: StepResult) {
    step.exitCode == 0 && !step.timedOut
  }

  predicate AllGood(steps: seq<StepResult>) {
    forall i | 0 <= i < |steps| :: Good(steps[i])
  }

  const MAX_DETAIL_BYTES := 512
  const MAX_STEPS := 4096
}
