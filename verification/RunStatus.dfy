/** Conditions, reactions and policies (pkg/op/run_state.go, pkg/op/policies_config.go). */
module RunStatus {

  /** The worst trouble a run has met; the order is by severity. */
  datatype Condition = Healthy | Degraded | ExecutionFailed | CompensationFailed {
    function Rank(): nat {
      match this
      case Healthy => 0
      case Degraded => 1
      case ExecutionFailed => 2
      case CompensationFailed => 3
    }
  }

  datatype Phase = Preparing | Running | PausedPhase | Stopping | StoppedPhase | Completed

  datatype Reason =
    | NoReason | ActionFailed | CompensationReason | RetryVetoed | HandlerFailed | DegradedReason | FailedReason
    | PreflightFailed | FrameworkFailed | StoppedReason | PausedReason | UnwoundReason

  datatype Reaction = Continue | Pause | Stop {
    function Rank(): nat {
      match this
      case Continue => 0
      case Pause => 1
      case Stop => 2
    }
  }

  function Worse(a: Reaction, b: Reaction): (r: Reaction)
    ensures r.Rank() >= a.Rank() && r.Rank() >= b.Rank() && (r == a || r == b)
  {
    if b.Rank() > a.Rank() then b else a
  }

  datatype TransitionPolicy =
    TransitionPolicy(degraded: Reaction, executionFailed: Reaction, compensationFailed: Reaction) {
    function ReactionFor(c: Condition): Reaction {
      match c
      case Degraded => degraded
      case ExecutionFailed => executionFailed
      case CompensationFailed => compensationFailed
      case Healthy => Continue
    }

    predicate Validate() {
      compensationFailed != Continue
    }
  }

  /** The builtin floor. */
  const FLOOR := TransitionPolicy(Continue, Stop, Stop)
  const FLOOR_RETRIES: int := 3

  /** The condition a failure's reason implies at the boundary. */
  function ConditionForReason(r: Reason): Condition {
    match r
    case DegradedReason => Degraded
    case CompensationReason => CompensationFailed
    case _ => ExecutionFailed
  }
}
