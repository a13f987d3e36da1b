/** The terminal state installed by `set_finished` (src/statomata/final.py). */
module Finals {
  import opened Errors

  /** The classes of `FinalStateAlreadyReachedError`, a package error. */
  const FinalStateAlreadyReachedClasses: seq<ErrorType> :=
    ["FinalStateAlreadyReachedError", "StateMachineError", ExceptionType]

  /** A final state remembers the reason and the extra details it was created with. */
  datatype FinalState = FinalState(reason: string, details: seq<string>)

  /**
   * `FinalState.handle`: it never produces an outcome and never touches the
   * context; the only thing it does is raise, carrying the reason and details.
   */
  function Handle<U>(f: FinalState, event: U): (err: Error)
    ensures err.Valid()
    ensures err.IsInstance("FinalStateAlreadyReachedError")
    ensures err.args == [f.reason] + f.details
  {
    Error(FinalStateAlreadyReachedClasses, [f.reason] + f.details)
  }
}
