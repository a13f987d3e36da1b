/**
 * The unary shell (src/statomata/unary.py): one income in, one outcome out.
 * A state's `handle` is user code, so it enters the model as a function from
 * the state and the income to what the call did: the outcome it returned or
 * the error it raised, and the last state it asked its context for.
 */
module Unary {
  import opened Wrappers
  import opened Errors
  import opened Finals
  import opened Executors
  import opened Subscribers

  /**
   * What one `handle` call did. `request` is the argument of its last
   * `set_state` or `set_finished` call, if any: a later call overrides an
   * earlier one, so only the last matters.
   */
  datatype Reply<S, O> =
    | Returned(outcome: O, request: Option<Node<S>>)
    | Raised(request: Option<Node<S>>, error: Error)

  /**
   * Calling `handle` on whatever the executor holds. A FinalState does not
   * run user code: it raises FinalStateAlreadyReachedError and never asks for
   * a transition.
   */
  function Dispatch<S, U, O>(node: Node<S>, income: U, handle: (S, U) -> Reply<S, O>): (r: Reply<S, O>)
    ensures node.Final? ==> r.Raised? && r.request.None?
    ensures node.Final? ==> r.error.Valid() && r.error.IsInstance("FinalStateAlreadyReachedError")
    ensures node.User? ==> r == handle(node.state, income)
  {
    match node
    case User(st) => handle(st, income)
    case Final(f) => Raised(None, Finals.Handle(f, income))
  }

  /** The executor after the handler's request reached its context. */
  function Asked<S, U, V>(s: Snapshot<S, U, V>, request: Option<Node<S>>): Snapshot<S, U, V> {
    if request.Some? then WithPending(s, request.value) else s
  }

  /**
   * One `run(income)`: enter the state, call its handler; on a return report
   * the outcome and finish the state, on an error let the executor handle it
   * and raise the same error again. Returns the executor afterwards and the
   * call's result.
   */
  function RunOnce<S, U, V>(x: Setup<S>, s: Snapshot<S, U, V>, income: U, handle: (S, U) -> Reply<S, V>)
    : (r: (Snapshot<S, U, V>, Result<V, Error>))
    ensures r.0.started && r.0.next == None
    ensures r.1.Success? <==> Dispatch(s.state, income, handle).Returned?
  {
    var entered := Started(x, s, income);
    var reply := Dispatch(entered.state, income, handle);
    var asked := Asked(entered, reply.request);
    match reply
    case Returned(outcome, _) => (Finished(x, Reported(x, asked, income, outcome), income), Success(outcome))
    case Raised(_, err) => (Failed(x, asked, err).0, Failure(err))
  }

  /**
   * A run whose handler returns gives back exactly that outcome; the state
   * then is the one the handler asked for (or the one pending before, or the
   * current one), and after `state_start` the subscriber hears the outcome
   * and then `state_finish`, both for the state that handled the income.
   */
  lemma RunReturns<S, U, V>(x: Setup<S>, s: Snapshot<S, U, V>, income: U, handle: (S, U) -> Reply<S, V>)
    requires Dispatch(s.state, income, handle).Returned?
    ensures var reply := Dispatch(s.state, income, handle);
      var (after, result) := RunOnce(x, s, income, handle);
      && result == Success(reply.outcome)
      && after.state == Applied(s.state, if reply.request.Some? then reply.request else s.next)
      && after.finished == (s.finished || after.state.Final?)
      && var before := Started(x, s, income).events;
         after.events[..|before|] == before
         && (x.hasSubscriber ==>
               |after.events| >= |before| + 2
               && after.events[|before|] == StateOutcome(s.state, income, reply.outcome)
               && after.events[|before| + 1] == StateFinish(s.state, income))
  {
  }

  /**
   * A run whose handler raises raises the same error whether or not the
   * fallback recovers; the outcome is never reported and the state is never
   * finished. The state afterwards is the fallback's answer, if any,
   * otherwise the state that failed; a pending request is dropped.
   */
  lemma RunRaises<S, U, V>(x: Setup<S>, s: Snapshot<S, U, V>, income: U, handle: (S, U) -> Reply<S, V>)
    requires Dispatch(s.state, income, handle).Raised?
    ensures var err := Dispatch(s.state, income, handle).error;
      var (after, result) := RunOnce(x, s, income, handle);
      && result == Failure(err)
      && after.state == (if Recovers(x, err) then x.fallback.value(err).value else s.state)
      && after.finished == s.finished
      && var before := Started(x, s, income).events;
         after.events[..|before|] == before
         && (forall i :: |before| <= i < |after.events| ==>
               !after.events[i].StateOutcome? && !after.events[i].StateFinish?)
         && (x.hasSubscriber ==> |after.events| > |before| && after.events[|before|] == StateError(s.state, err))
  {
  }

  /**
   * The handler of a run is the state current when it starts: a state asked
   * for by one run handles the next income.
   */
  lemma {:induction false} RequestHandlesNext<S, U, V>(x: Setup<S>, s: Snapshot<S, U, V>, a: U, b: U, handle: (S, U) -> Reply<S, V>, t: S)
    requires Dispatch(s.state, a, handle).Returned? && Dispatch(s.state, a, handle).request == Some(User(t))
    ensures Dispatch(RunOnce(x, s, a, handle).0.state, b, handle) == handle(t, b)
  {
    RunReturns(x, s, a, handle);
  }

  /** The unary state machine: a shell around one executor. */
  class UnaryStateMachine<S, U, V> {
    const executor: StateMachineExecutor<S, U, V>

    constructor (executor: StateMachineExecutor<S, U, V>)
      ensures this.executor == executor
    {
      this.executor := executor;
    }

    /** `current_state`: the executor's state. */
    function CurrentState(): Node<S>
      reads executor
    {
      executor.state
    }

    /** `run(income)`, one call at a time (the lock). */
    method Run(income: U, handle: (S, U) -> Reply<S, V>) returns (r: Result<V, Error>)
      modifies executor
      ensures (executor.Snap(), r) == RunOnce(executor.Conf(), old(executor.Snap()), income, handle)
    {
      executor.StartState(income);
      var reply := Dispatch(CurrentState(), income, handle);
      if reply.request.Some? {
        executor.SetState(reply.request.value);
      }
      match reply
      case Returned(outcome, _) =>
        executor.HandleOutcome(income, outcome);
        executor.FinishState(income);
        r := Success(outcome);
      case Raised(_, err) =>
        var _ := executor.HandleStateError(err);
        r := Failure(err);
    }
  }
}
