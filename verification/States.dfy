/** The job lifecycle (scrapequeue/core/states.py). */
module States {
  datatype JobState = PENDING | RUNNING | PAUSED | SUCCEEDED | PARTIAL | SUSPECT | FAILED | CANCELLED | DEAD_LETTER

  const TERMINAL_STATES: set<JobState> := {SUCCEEDED, PARTIAL, SUSPECT, FAILED, CANCELLED, DEAD_LETTER}

  function Transitions(current: JobState): set<JobState> {
    match current
    case PENDING => {RUNNING, CANCELLED, FAILED}
    case RUNNING => {RUNNING, PAUSED, SUCCEEDED, PARTIAL, SUSPECT, FAILED, CANCELLED, DEAD_LETTER}
    case PAUSED => {RUNNING, CANCELLED, FAILED}
    case _ => {}
  }

  predicate CanTransition(current: JobState, target: JobState) {
    target in Transitions(current)
  }

  /** Terminal is final, and only terminal states are: every other state can still
      be cancelled. */
  lemma TerminalIsFinal(current: JobState)
    ensures current in TERMINAL_STATES <==> forall target :: !CanTransition(current, target)
    ensures current !in TERMINAL_STATES ==> CanTransition(current, CANCELLED)
  {
    if current !in TERMINAL_STATES {
      assert CanTransition(current, CANCELLED);
    }
  }

  /** A job that is not RUNNING yet, or paused, can run, be cancelled or fail; a RUNNING
      one can go anywhere but back. */
  lemma Successors(target: JobState)
    ensures CanTransition(PENDING, target) <==> CanTransition(PAUSED, target)
    ensures CanTransition(PENDING, target) <==> target in {RUNNING, CANCELLED, FAILED}
    ensures CanTransition(RUNNING, target) <==> target != PENDING
  {
  }

  /** Only a job that has been RUNNING can be parked or hold a result. */
  lemma OnlyRunningFinishes(current: JobState, target: JobState)
    ensures CanTransition(current, target) && target in {SUCCEEDED, PARTIAL, SUSPECT, DEAD_LETTER} ==>
            current == RUNNING
  {
  }
}
