/** The transition table of jobs and attempts. */
module JobStateMachine {

  datatype Status =
    | SUBMITTED | QUEUED | RUNNING | CANCELLING
    | SUCCEEDED | FAILED | TIMED_OUT | CANCELLED | LOST

  function ValidTransitions(from: Status): set<Status> {
    match from
    case SUBMITTED => {QUEUED, CANCELLED}
    case QUEUED => {RUNNING, FAILED, CANCELLED, TIMED_OUT}
    case RUNNING => {SUCCEEDED, FAILED, TIMED_OUT, CANCELLING, LOST}
    case CANCELLING => {CANCELLED, FAILED}
    case _ => {}
  }

  predicate CanTransition(from: Status, to: Status) {
    to in ValidTransitions(from)
  }

  predicate IsTerminal(s: Status) {
    s in {SUCCEEDED, FAILED, TIMED_OUT, CANCELLED, LOST}
  }
}
