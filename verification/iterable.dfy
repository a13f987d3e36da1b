/**
 * The iterable shells (src/statomata/iterable.py): a stream of incomes in, a
 * stream of outcomes out. Each income is handled inside a visit of the
 * current state; after each visit the shell stops if the machine is aborted.
 *
 * The visit context manager and the aborted flag belong to an executor
 * interface that src/statomata/executor.py does not define. The visit is
 * modelled as: `start_state` on entry, `finish_state` on a normal exit, and
 * `handle_state_error` followed by the same error on an exceptional exit.
 * Whether the machine is aborted is left as a parameter: any predicate of
 * the executor's snapshot (with the executor in `executor.py`, its `finished` flag).
 */
module Iterable {
  import opened Wrappers
  import opened Errors
  import opened Finals
  import opened Executors
  import opened Subscribers
  import opened Unary

  /**
   * What one income's handler did: the outcomes it produced, in order, the
   * last state it asked for, and the error it raised after those outcomes,
   * if it raised one.
   */
  datatype Batch<S, V> = Batch(outcomes: seq<V>, request: Option<Node<S>>, error: Option<Error>)

  /** Calling a generator-style `handle` on what the executor holds; a FinalState raises at once. */
  function Produce<S, U, V>(node: Node<S>, income: U, handle: (S, U) -> Batch<S, V>): (b: Batch<S, V>)
    ensures node.Final? ==> b.outcomes == [] && b.request == None && b.error.Some?
    ensures node.Final? ==> b.error.value.IsInstance("FinalStateAlreadyReachedError")
  {
    match node
    case User(st) => handle(st, income)
    case Final(f) => Batch([], None, Some(Finals.Handle(f, income)))
  }

  /** A state of the Opt shell returns one optional outcome: None produces nothing. */
  function OptBatch<S, V>(r: Reply<S, Option<V>>): (b: Batch<S, V>)
    ensures |b.outcomes| <= 1
    ensures |b.outcomes| == 1 <==> r.Returned? && r.outcome.Some?
    ensures r.Returned? && r.outcome.Some? ==> b.outcomes[0] == r.outcome.value
    ensures b.request == r.request && (b.error.Some? <==> r.Raised?)
  {
    match r
    case Returned(o, request) => Batch(if o.Some? then [o.value] else [], request, None)
    case Raised(request, err) => Batch([], request, Some(err))
  }

  /** A state of the Seq shell returns a whole sequence of outcomes. */
  function SeqBatch<S, V>(r: Reply<S, seq<V>>): (b: Batch<S, V>)
    ensures r.Returned? ==> b.outcomes == r.outcome && b.error == None
    ensures r.Raised? ==> b.outcomes == [] && b.error == Some(r.error)
    ensures b.request == r.request
  {
    match r
    case Returned(os, request) => Batch(os, request, None)
    case Raised(request, err) => Batch([], request, Some(err))
  }

  /** The `state_outcome` notifications for a list of outcomes of one income, in order. */
  function Reports<S, U, V>(st: Node<S>, income: U, os: seq<V>): (r: seq<Event<S, U, V>>)
    ensures |r| == |os|
    ensures forall i :: 0 <= i < |os| ==> r[i] == StateOutcome(st, income, os[i])
  {
    seq(|os|, i requires 0 <= i < |os| => StateOutcome(st, income, os[i]))
  }

  /** `handle_outcome` once per outcome, in order. */
  function ReportAll<S, U, V>(x: Setup<S>, s: Snapshot<S, U, V>, income: U, os: seq<V>): (r: Snapshot<S, U, V>)
    ensures r.events == s.events + Emit(x, Reports(s.state, income, os))
    ensures r.(events := s.events) == s
    decreases |os|
  {
    if |os| == 0 then s
    else Reported(x, ReportAll(x, s, income, os[..|os| - 1]), income, os[|os| - 1])
  }

  /**
   * One visit: enter the state, report every outcome of its handler with
   * this income, then leave it normally or, when the handler raised, let
   * the executor handle the error. Returns the executor afterwards and the
   * error the visit re-raises.
   */
  function Visit<S, U, V>(x: Setup<S>, s: Snapshot<S, U, V>, income: U, b: Batch<S, V>)
    : (r: (Snapshot<S, U, V>, Option<Error>))
    ensures r.1 == b.error
    ensures r.0.next == None && r.0.started
    ensures var reported := Started(x, s, income).events + Emit(x, Reports(s.state, income, b.outcomes));
      reported <= r.0.events
    ensures r.0.state ==
      if b.error.Some? then (if Recovers(x, b.error.value) then x.fallback.value(b.error.value).value else s.state)
      else if b.request.Some? then b.request.value
      else if s.next.Some? then s.next.value
      else s.state
  {
    var entered := Started(x, s, income);
    var asked := Asked(ReportAll(x, entered, income, b.outcomes), b.request);
    if b.error.Some? then (Failed(x, asked, b.error.value).0, b.error)
    else (Finished(x, asked, income), None)
  }

  /** The result of a run: the machine after it, the outcomes, the error it raised, how many incomes it took. */
  datatype Trip<T, V> = Trip(after: T, outs: seq<V>, error: Option<Error>, consumed: nat)

  /**
   * `run(incomes)` consumed to the end, for any way `visit` of handling one
   * income: incomes are visited in order, each from where the previous one
   * left the machine; the run stops after a visit that raised (raising it)
   * or after which the machine is aborted.
   */
  function Drive<T, U, V>(t: T, incomes: seq<U>, visit: (T, U) -> Trip<T, V>, aborted: T -> bool): (r: Trip<T, V>)
    ensures r.consumed <= |incomes|
    ensures r.consumed == 0 <==> |incomes| == 0
    ensures r.consumed < |incomes| ==> r.error.Some? || aborted(r.after)
    decreases |incomes|
  {
    if |incomes| == 0 then Trip(t, [], None, 0)
    else
      var n := visit(t, incomes[0]);
      if n.error.Some? || aborted(n.after) then Trip(n.after, n.outs, n.error, 1)
      else
        var rest := Drive(n.after, incomes[1..], visit, aborted);
        Trip(rest.after, n.outs + rest.outs, rest.error, 1 + rest.consumed)
  }

  /**
   * Once a run has stopped, by raising or by aborting the machine, nothing
   * more is taken from the incomes: more incomes after them change nothing.
   */
  lemma {:induction false} DriveStops<T, U, V>(t: T, a: seq<U>, b: seq<U>, visit: (T, U) -> Trip<T, V>, aborted: T -> bool)
    requires |a| > 0
    requires Drive(t, a, visit, aborted).error.Some? || aborted(Drive(t, a, visit, aborted).after)
    ensures Drive(t, a + b, visit, aborted) == Drive(t, a, visit, aborted)
    decreases |a|
  {
    assert (a + b)[0] == a[0];
    assert (a + b)[1..] == a[1..] + b;
    var n := visit(t, a[0]);
    if !(n.error.Some? || aborted(n.after)) {
      DriveStops(n.after, a[1..], b, visit, aborted);
    }
  }

  /**
   * A run over `a + b` that gets through `a` without stopping is the run
   * over `a` followed by the run over `b` from where `a` left the machine:
   * the outcomes are those of `a` and then those of `b`.
   */
  lemma {:induction false} DriveContinues<T, U, V>(t: T, a: seq<U>, b: seq<U>, visit: (T, U) -> Trip<T, V>, aborted: T -> bool)
    requires Drive(t, a, visit, aborted).error.None?
    requires |a| == 0 || !aborted(Drive(t, a, visit, aborted).after)
    ensures var da := Drive(t, a, visit, aborted);
      var db := Drive(da.after, b, visit, aborted);
      Drive(t, a + b, visit, aborted) == Trip(db.after, da.outs + db.outs, db.error, |a| + db.consumed)
    decreases |a|
  {
    if |a| == 0 {
      assert a + b == b;
    } else {
      assert (a + b)[0] == a[0];
      assert (a + b)[1..] == a[1..] + b;
      var n := visit(t, a[0]);
      DriveContinues(n.after, a[1..], b, visit, aborted);
      var rest := Drive(n.after, a[1..], visit, aborted);
      var db := Drive(rest.after, b, visit, aborted);
      assert n.outs + (rest.outs + db.outs) == (n.outs + rest.outs) + db.outs;
    }
  }

  /**
   * The outcome stream is the concatenation, income by income, of what each
   * visit produced: it starts with everything the first visit produced,
   * even when that visit aborts the machine or raises.
   */
  lemma FirstOutcomesEmitted<T, U, V>(t: T, incomes: seq<U>, visit: (T, U) -> Trip<T, V>, aborted: T -> bool)
    requires |incomes| > 0
    ensures var first := visit(t, incomes[0]).outs;
      var d := Drive(t, incomes, visit, aborted);
      |first| <= |d.outs| && d.outs[..|first|] == first
  {
  }

  /** One executor visit: the handler of the state current now, run on one income. */
  function Next<S, U, V>(x: Setup<S>, s: Snapshot<S, U, V>, income: U, handle: (S, U) -> Batch<S, V>)
    : (r: Trip<Snapshot<S, U, V>, V>)
    ensures r.consumed == 1
    ensures r.outs == Produce(s.state, income, handle).outcomes
    ensures r.error == Produce(s.state, income, handle).error
  {
    var b := Produce(s.state, income, handle);
    var (t, err) := Visit(x, s, income, b);
    Trip(t, b.outcomes, err, 1)
  }

  /**
   * The handler of a visit is the state current when it starts: a state
   * asked for while handling one income, without an error, handles the next.
   */
  lemma {:induction false} RequestHandlesNext<S, U, V>(x: Setup<S>, s: Snapshot<S, U, V>, a: U, c: U, handle: (S, U) -> Batch<S, V>, t: S)
    requires Produce(s.state, a, handle).error.None?
    requires Produce(s.state, a, handle).request == Some(User(t))
    ensures Next(x, s, a, handle).error.None?
    ensures Produce(Next(x, s, a, handle).after.state, c, handle) == handle(t, c)
  {
    var b := Produce(s.state, a, handle);
    assert Visit(x, s, a, b).0.state == User(t);
  }

  /** The visit of one income by an executor with setup `x`. */
  function Visitor<S, U, V>(x: Setup<S>, handle: (S, U) -> Batch<S, V>): (Snapshot<S, U, V>, U) -> Trip<Snapshot<S, U, V>, V> {
    (s, income) => Next(x, s, income, handle)
  }

  /** The handler of the Opt shell, seen as producing a list of outcomes. */
  function OptHandler<S, U, V>(handle: (S, U) -> Reply<S, Option<V>>): (S, U) -> Batch<S, V> {
    (st, income) => OptBatch(handle(st, income))
  }

  /** The handler of the Seq shell, seen as producing a list of outcomes. */
  function SeqHandler<S, U, V>(handle: (S, U) -> Reply<S, seq<V>>): (S, U) -> Batch<S, V> {
    (st, income) => SeqBatch(handle(st, income))
  }

  /**
   * The body of one `with visit_state(income)` block: enter, pass each
   * outcome on (yield, then `handle_outcome`), leave or handle the error.
   */
  method VisitState<S, U, V>(e: StateMachineExecutor<S, U, V>, income: U, handle: (S, U) -> Batch<S, V>)
    returns (outs: seq<V>, error: Option<Error>)
    modifies e
    ensures Trip(e.Snap(), outs, error, 1) == Visitor(e.Conf(), handle)(old(e.Snap()), income)
  {
    ghost var s := e.Snap();
    e.StartState(income);
    var batch := Produce(e.state, income, handle);
    outs := [];
    var j := 0;
    while j < |batch.outcomes|
      invariant j <= |batch.outcomes|
      invariant outs == batch.outcomes[..j]
      invariant e.Snap() == ReportAll(e.Conf(), Started(e.Conf(), s, income), income, batch.outcomes[..j])
    {
      outs := outs + [batch.outcomes[j]];
      e.HandleOutcome(income, batch.outcomes[j]);
      assert batch.outcomes[..j + 1][..j] == batch.outcomes[..j];
      j := j + 1;
    }
    assert batch.outcomes[..j] == batch.outcomes;
    if batch.request.Some? {
      e.SetState(batch.request.value);
    }
    if batch.error.Some? {
      var _ := e.HandleStateError(batch.error.value);
      return outs, batch.error;
    }
    e.FinishState(income);
    error := None;
  }

  /** The loop of `run`: one visit per income, stopping on an error or once aborted. */
  method Pump<S, U, V>(e: StateMachineExecutor<S, U, V>, incomes: seq<U>, handle: (S, U) -> Batch<S, V>,
                       aborted: Snapshot<S, U, V> -> bool)
    returns (outs: seq<V>, error: Option<Error>, consumed: nat)
    modifies e
    ensures Trip(e.Snap(), outs, error, consumed) == Drive(old(e.Snap()), incomes, Visitor(e.Conf(), handle), aborted)
  {
    ghost var visit := Visitor(e.Conf(), handle);
    ghost var whole := Drive(e.Snap(), incomes, visit, aborted);
    outs, error, consumed := [], None, 0;
    while consumed < |incomes|
      invariant consumed <= |incomes|
      invariant var d := Drive(e.Snap(), incomes[consumed..], visit, aborted);
        whole == Trip(d.after, outs + d.outs, d.error, consumed + d.consumed)
      decreases |incomes| - consumed
    {
      ghost var s := e.Snap();
      var income := incomes[consumed];
      assert incomes[consumed..][0] == income;
      assert incomes[consumed..][1..] == incomes[consumed + 1..];
      var produced, raised := VisitState(e, income, handle);
      ghost var n := visit(s, income);
      assert n == Trip(e.Snap(), produced, raised, 1);
      if raised.Some? || aborted(e.Snap()) {
        assert Drive(s, incomes[consumed..], visit, aborted) == Trip(n.after, produced, raised, 1);
        outs := outs + produced;
        consumed := consumed + 1;
        error := raised;
        return;
      }
      ghost var rest := Drive(e.Snap(), incomes[consumed + 1..], visit, aborted);
      assert Drive(s, incomes[consumed..], visit, aborted) == Trip(rest.after, produced + rest.outs, rest.error, 1 + rest.consumed);
      assert outs + (produced + rest.outs) == (outs + produced) + rest.outs;
      outs := outs + produced;
      consumed := consumed + 1;
    }
    assert incomes[consumed..] == [];
    assert outs + [] == outs;
  }

  /** `IterableStateMachine`: each state's handler is a generator of outcomes. */
  class IterableStateMachine<S, U, V> {
    const executor: StateMachineExecutor<S, U, V>

    constructor (executor: StateMachineExecutor<S, U, V>)
      ensures this.executor == executor
    {
      this.executor := executor;
    }

    /** `run(incomes)`, consumed to the end, one call at a time (the lock). */
    method Run(incomes: seq<U>, handle: (S, U) -> Batch<S, V>, aborted: Snapshot<S, U, V> -> bool)
      returns (outs: seq<V>, error: Option<Error>, consumed: nat)
      modifies executor
      ensures Trip(executor.Snap(), outs, error, consumed)
           == Drive(old(executor.Snap()), incomes, Visitor(executor.Conf(), handle), aborted)
    {
      outs, error, consumed := Pump(executor, incomes, handle, aborted);
    }
  }

  /** `IterableOptStateMachine`: each state returns one outcome or None. */
  class IterableOptStateMachine<S, U, V> {
    const executor: StateMachineExecutor<S, U, V>

    constructor (executor: StateMachineExecutor<S, U, V>)
      ensures this.executor == executor
    {
      this.executor := executor;
    }

    method Run(incomes: seq<U>, handle: (S, U) -> Reply<S, Option<V>>, aborted: Snapshot<S, U, V> -> bool)
      returns (outs: seq<V>, error: Option<Error>, consumed: nat)
      modifies executor
      ensures Trip(executor.Snap(), outs, error, consumed)
           == Drive(old(executor.Snap()), incomes, Visitor(executor.Conf(), OptHandler(handle)), aborted)
    {
      outs, error, consumed := Pump(executor, incomes, OptHandler(handle), aborted);
    }
  }

  /** `IterableSeqStateMachine`: each state returns a sequence of outcomes. */
  class IterableSeqStateMachine<S, U, V> {
    const executor: StateMachineExecutor<S, U, V>

    constructor (executor: StateMachineExecutor<S, U, V>)
      ensures this.executor == executor
    {
      this.executor := executor;
    }

    method Run(incomes: seq<U>, handle: (S, U) -> Reply<S, seq<V>>, aborted: Snapshot<S, U, V> -> bool)
      returns (outs: seq<V>, error: Option<Error>, consumed: nat)
      modifies executor
      ensures Trip(executor.Snap(), outs, error, consumed)
           == Drive(old(executor.Snap()), incomes, Visitor(executor.Conf(), SeqHandler(handle)), aborted)
    {
      outs, error, consumed := Pump(executor, incomes, SeqHandler(handle), aborted);
    }
  }
}
