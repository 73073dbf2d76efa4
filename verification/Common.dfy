/** Success, failure and absence, as the Python code expresses them with exceptions and None. */
module Common {

  datatype Option<+T> = None | Some(value: T)

  datatype Result<+T, +E> = Ok(value: T) | Err(error: E)

  /** The exception classes of the agent runtime. */
  datatype RuntimeError =
    | InvalidRuntimeInput
    | InvalidStateTransition
    | RuntimeNotRunning
    | StaleTurnEvent
    | ContextBudgetExceeded

  lemma SomeMember<T(!new)>(s: set<T>) returns (x: T)
    requires |s| > 0
    ensures x in s
  {
    assert s != {};
    x :| x in s;
  }
}
