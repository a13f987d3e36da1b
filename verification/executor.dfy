/**
 * The state machine executor (src/statomata/executor.py): one current-state
 * cell, one pending-state cell, two flags that only turn on, an optional
 * fallback and an optional subscriber. Each operation is specified by a
 * function from the executor's snapshot before the call to the snapshot
 * after it; the class below performs the same steps on its fields.
 */
module Executors {
  import opened Wrappers
  import opened Errors
  import opened Finals
  import opened Subscribers

  /**
   * What an executor can hold as its state: a user state, or the FinalState
   * that `set_finished` installs (the Python code casts it into the user's
   * state type).
   */
  datatype Node<S> = User(state: S) | Final(final: FinalState)

  /** The fixed part of an executor: its fallback and whether it has a subscriber. */
  datatype Setup<!S> = Setup(fallback: Option<Error -> Option<Node<S>>>, hasSubscriber: bool)

  type Event<S, U, V> = Notification<Node<S>, U, V>

  /**
   * The changing part of an executor; `events` lists the calls made on the
   * subscriber so far, in order.
   */
  datatype Snapshot<S, U, V> = Snapshot(
    state: Node<S>,
    next: Option<Node<S>>,
    started: bool,
    finished: bool,
    events: seq<Event<S, U, V>>)

  /** A new executor: in its initial state, nothing pending, no flag set, nothing emitted. */
  function Fresh<S, U, V>(initial: Node<S>): Snapshot<S, U, V> {
    Snapshot(initial, None, false, false, [])
  }

  /** The notifications that reach the subscriber: none when there is none. */
  function Emit<S, U, V>(x: Setup<S>, ns: seq<Event<S, U, V>>): seq<Event<S, U, V>> {
    if x.hasSubscriber then ns else []
  }

  /** The state that applying a pending cell leaves current. */
  function Applied<S>(current: Node<S>, pending: Option<Node<S>>): Node<S> {
    if pending.Some? then pending.value else current
  }

  /** Whether `handle_state_error` performs a transition for this error. */
  predicate Recovers<S>(x: Setup<S>, err: Error) {
    x.fallback.Some? && x.fallback.value(err).Some?
  }

  /** `set_state`: records a pending state and changes nothing else. */
  function WithPending<S, U, V>(s: Snapshot<S, U, V>, st: Node<S>): (r: Snapshot<S, U, V>)
    ensures r.next == Some(st)
    ensures r.state == s.state && r.started == s.started && r.finished == s.finished && r.events == s.events
  {
    s.(next := Some(st))
  }

  /** A second `set_state` overrides the first: only the latest request is kept. */
  lemma SetStateOverwrites<S, U, V>(s: Snapshot<S, U, V>, a: Node<S>, b: Node<S>)
    ensures WithPending(WithPending(s, a), b) == WithPending(s, b)
  {
  }

  /** `set_finished(reason, *details)`: a pending FinalState carrying them. */
  function WithFinalPending<S, U, V>(s: Snapshot<S, U, V>, reason: string, details: seq<string>): (r: Snapshot<S, U, V>)
    ensures r.next.Some? && r.next.value.Final?
    ensures r.next.value.final.reason == reason && r.next.value.final.details == details
    ensures r == WithPending(s, r.next.value)
  {
    WithPending(s, Final(FinalState(reason, details)))
  }

  /**
   * `start_state`: marks the executor started, emits `start` only when it
   * was not started yet, and `state_start` every time.
   */
  function Started<S, U, V>(x: Setup<S>, s: Snapshot<S, U, V>, income: U): (r: Snapshot<S, U, V>)
    ensures r.started
    ensures r.state == s.state && r.next == s.next && r.finished == s.finished
    ensures r.events == s.events
      + Emit(x, (if s.started then [] else [Start(s.state)]) + [StateStart(s.state, income)])
  {
    var first := if s.started then [] else Emit(x, [Start(s.state)]);
    s.(started := true, events := s.events + first + Emit(x, [StateStart(s.state, income)]))
  }

  /** `handle_outcome`: one `state_outcome` for the current state, nothing else. */
  function Reported<S, U, V>(x: Setup<S>, s: Snapshot<S, U, V>, income: U, outcome: V): (r: Snapshot<S, U, V>)
    ensures r.events == s.events + Emit(x, [StateOutcome(s.state, income, outcome)])
    ensures r.(events := s.events) == s
  {
    s.(events := s.events + Emit(x, [StateOutcome(s.state, income, outcome)]))
  }

  /**
   * `reset_state`: with nothing pending, returns false and changes nothing;
   * otherwise the pending state becomes current (even when it equals the
   * current one), the pending cell empties and exactly one transition is
   * emitted.
   */
  function Reset<S, U, V>(x: Setup<S>, s: Snapshot<S, U, V>): (r: (Snapshot<S, U, V>, bool))
    ensures r.1 <==> s.next.Some?
    ensures !r.1 ==> r.0 == s
    ensures r.1 ==> r.0.state == s.next.value && r.0.next == None
    ensures r.1 ==> r.0.events == s.events + Emit(x, [TransitionMade(s.state, s.next.value)])
    ensures r.0.started == s.started && r.0.finished == s.finished
  {
    if s.next.None? then (s, false)
    else (s.(state := s.next.value, next := None,
             events := s.events + Emit(x, [TransitionMade(s.state, s.next.value)])), true)
  }

  /**
   * `finish_state`: `state_finish` for the state being left, then the
   * pending transition; afterwards nothing is pending, and the executor is
   * finished, with `finish` emitted, exactly when the resulting state is a
   * FinalState (or it was finished before).
   */
  function Finished<S, U, V>(x: Setup<S>, s: Snapshot<S, U, V>, income: U): (r: Snapshot<S, U, V>)
    ensures r.state == Applied(s.state, s.next) && r.next == None
    ensures r.started == s.started
    ensures r.finished <==> s.finished || r.state.Final?
    ensures r.events == s.events + Emit(x,
              [StateFinish(s.state, income)]
              + (if s.next.Some? then [TransitionMade(s.state, r.state)] else [])
              + (if r.state.Final? then [Finish(r.state)] else []))
  {
    var left := s.(events := s.events + Emit(x, [StateFinish(s.state, income)]));
    var (reset, _) := Reset(x, left);
    if reset.state.Final? then reset.(finished := true, events := reset.events + Emit(x, [Finish(reset.state)]))
    else reset
  }

  /**
   * `handle_state_error`: drops any pending state and emits `state_error`;
   * it transitions into the fallback's answer and returns true exactly when
   * there is a fallback and it answers some state; otherwise the state stays.
   */
  function Failed<S, U, V>(x: Setup<S>, s: Snapshot<S, U, V>, err: Error): (r: (Snapshot<S, U, V>, bool))
    ensures r.1 <==> Recovers(x, err)
    ensures r.0.state == (if r.1 then x.fallback.value(err).value else s.state)
    ensures r.0.next == None
    ensures r.0.started == s.started && r.0.finished == s.finished
    ensures r.0.events == s.events + Emit(x,
              [StateError(s.state, err)] + (if r.1 then [TransitionMade(s.state, r.0.state)] else []))
  {
    var failed := s.(next := None, events := s.events + Emit(x, [StateError(s.state, err)]));
    if x.fallback.None? then (failed, false)
    else Reset(x, failed.(next := x.fallback.value(err)))
  }

  class StateMachineExecutor<S, U, V> {
    var state: Node<S>
    var next: Option<Node<S>>
    const fallback: Option<Error -> Option<Node<S>>>
    /** Whether a subscriber was given; without one, no notification is made. */
    const hasSubscriber: bool
    var started: bool
    var finished: bool
    /** The calls made on the subscriber so far, in order. */
    var events: seq<Event<S, U, V>>

    function Conf(): Setup<S> {
      Setup(fallback, hasSubscriber)
    }

    function Snap(): Snapshot<S, U, V>
      reads this
    {
      Snapshot(state, next, started, finished, events)
    }

    constructor (state: Node<S>, fallback: Option<Error -> Option<Node<S>>>, hasSubscriber: bool)
      ensures Conf() == Setup(fallback, hasSubscriber)
      ensures Snap() == Fresh(state)
    {
      this.state := state;
      next := None;
      this.fallback := fallback;
      this.hasSubscriber := hasSubscriber;
      started := false;
      finished := false;
      events := [];
    }

    method SetState(st: Node<S>)
      modifies this`next
      ensures Snap() == WithPending(old(Snap()), st)
    {
      next := Some(st);
    }

    method SetFinished(reason: string, details: seq<string>)
      modifies this`next
      ensures Snap() == WithFinalPending(old(Snap()), reason, details)
    {
      SetState(Final(FinalState(reason, details)));
    }

    /** Returns nothing: the context `start_state` returns is the executor itself. */
    method StartState(income: U)
      modifies this`started, this`events
      ensures Snap() == Started(Conf(), old(Snap()), income)
    {
      if !started {
        started := true;
        if hasSubscriber {
          events := events + [Start(state)];
        }
      }
      if hasSubscriber {
        events := events + [StateStart(state, income)];
      }
    }

    method HandleOutcome(income: U, outcome: V)
      modifies this`events
      ensures Snap() == Reported(Conf(), old(Snap()), income, outcome)
    {
      if hasSubscriber {
        events := events + [StateOutcome(state, income, outcome)];
      }
    }

    method ResetState() returns (ok: bool)
      modifies this`state, this`next, this`events
      ensures (Snap(), ok) == Reset(Conf(), old(Snap()))
    {
      if next.None? {
        return false;
      }
      var source := state;
      state, next := next.value, None;
      if hasSubscriber {
        events := events + [TransitionMade(source, state)];
      } else {
        assert events + [] == events;
      }
      return true;
    }

    method FinishState(income: U)
      modifies this`state, this`next, this`finished, this`events
      ensures Snap() == Finished(Conf(), old(Snap()), income)
    {
      if hasSubscriber {
        events := events + [StateFinish(state, income)];
      }
      var _ := ResetState();
      if state.Final? {
        finished := true;
        if hasSubscriber {
          events := events + [Finish(state)];
        }
      }
    }

    method HandleStateError(err: Error) returns (ok: bool)
      modifies this`state, this`next, this`events
      ensures (Snap(), ok) == Failed(Conf(), old(Snap()), err)
    {
      next := None;
      if hasSubscriber {
        events := events + [StateError(state, err)];
      } else {
        assert events + [] == events;
      }
      if fallback.None? {
        return false;
      }
      next := fallback.value(err);
      ok := ResetState();
    }
  }

  /** Any one of the executor's operations, as a caller issues it. */
  datatype Op<S, U, V> =
    | SetStateOp(st: Node<S>)
    | StartOp(income: U)
    | OutcomeOp(income: U, outcome: V)
    | FinishOp(income: U)
    | ErrorOp(err: Error)
    | ResetOp

  function Step<S, U, V>(x: Setup<S>, s: Snapshot<S, U, V>, op: Op<S, U, V>): Snapshot<S, U, V> {
    match op
    case SetStateOp(st) => WithPending(s, st)
    case StartOp(income) => Started(x, s, income)
    case OutcomeOp(income, outcome) => Reported(x, s, income, outcome)
    case FinishOp(income) => Finished(x, s, income)
    case ErrorOp(err) => Failed(x, s, err).0
    case ResetOp => Reset(x, s).0
  }

  /** The snapshot after a sequence of operations, applied in order. */
  function Replay<S, U, V>(x: Setup<S>, s: Snapshot<S, U, V>, ops: seq<Op<S, U, V>>): Snapshot<S, U, V>
    decreases |ops|
  {
    if |ops| == 0 then s else Replay(x, Step(x, s, ops[0]), ops[1..])
  }

  /**
   * Over any sequence of operations the two flags never turn off and the
   * subscriber only ever sees calls appended after the earlier ones.
   */
  lemma {:induction false} FlagsMonotone<S, U, V>(x: Setup<S>, s: Snapshot<S, U, V>, ops: seq<Op<S, U, V>>)
    ensures s.started ==> Replay(x, s, ops).started
    ensures s.finished ==> Replay(x, s, ops).finished
    ensures s.events <= Replay(x, s, ops).events
    decreases |ops|
  {
    if |ops| > 0 {
      FlagsMonotone(x, Step(x, s, ops[0]), ops[1..]);
    }
  }

  /** How many `start` notifications a list of subscriber calls holds. */
  function CountStarts<S, U, V>(es: seq<Event<S, U, V>>): nat {
    if |es| == 0 then 0 else CountStarts(es[..|es| - 1]) + (if es[|es| - 1].Start? then 1 else 0)
  }

  lemma CountStartsAppend<S, U, V>(a: seq<Event<S, U, V>>, b: seq<Event<S, U, V>>)
    ensures CountStarts(a + b) == CountStarts(a) + CountStarts(b)
    decreases |b|
  {
    if |b| == 0 {
      assert a + b == a;
    } else {
      assert (a + b)[..|a + b| - 1] == a + b[..|b| - 1];
      assert (a + b)[|a + b| - 1] == b[|b| - 1];
      CountStartsAppend(a, b[..|b| - 1]);
    }
  }

  lemma {:induction false} CountStartsNone<S, U, V>(es: seq<Event<S, U, V>>)
    requires forall i :: 0 <= i < |es| ==> !es[i].Start?
    ensures CountStarts(es) == 0
  {
    if |es| > 0 {
      CountStartsNone(es[..|es| - 1]);
    }
  }

  /** One operation appends to the subscriber's calls; only a first `start_state` adds a `start`. */
  lemma StepStarts<S, U, V>(x: Setup<S>, s: Snapshot<S, U, V>, op: Op<S, U, V>) returns (added: seq<Event<S, U, V>>)
    ensures Step(x, s, op).events == s.events + added
    ensures Step(x, s, op).started == (s.started || op.StartOp?)
    ensures CountStarts(added) == (if op.StartOp? && !s.started && x.hasSubscriber then 1 else 0)
  {
    match op {
      case SetStateOp(st) =>
        added := [];
        assert s.events + added == s.events;
      case StartOp(income) =>
        added := Emit(x, (if s.started then [] else [Start(s.state)]) + [StateStart(s.state, income)]);
        if x.hasSubscriber && !s.started {
          var first: seq<Event<S, U, V>> := [Start(s.state)];
          assert added[..|added| - 1] == first;
          assert first[..0] == [];
          assert CountStarts(first) == 1;
        } else {
          CountStartsNone(added);
        }
      case OutcomeOp(income, outcome) =>
        added := Emit(x, [StateOutcome(s.state, income, outcome)]);
        CountStartsNone(added);
      case FinishOp(income) =>
        var r := Finished(x, s, income);
        added := Emit(x, [StateFinish(s.state, income)]
                         + (if s.next.Some? then [TransitionMade(s.state, r.state)] else [])
                         + (if r.state.Final? then [Finish(r.state)] else []));
        CountStartsNone(added);
      case ErrorOp(err) =>
        var r := Failed(x, s, err);
        added := Emit(x, [StateError(s.state, err)] + (if r.1 then [TransitionMade(s.state, r.0.state)] else []));
        CountStartsNone(added);
      case ResetOp =>
        added := if s.next.Some? then Emit(x, [TransitionMade(s.state, s.next.value)]) else [];
        assert s.events + [] == s.events;
        CountStartsNone(added);
    }
  }

  /**
   * Over the whole life of an executor, the subscriber hears `start` at most
   * once: exactly once when it has a subscriber and some `start_state` call
   * has been made, never otherwise.
   */
  lemma {:induction false} StartEmittedOnce<S, U, V>(x: Setup<S>, s: Snapshot<S, U, V>, ops: seq<Op<S, U, V>>)
    requires CountStarts(s.events) == (if s.started && x.hasSubscriber then 1 else 0)
    ensures CountStarts(Replay(x, s, ops).events) == (if Replay(x, s, ops).started && x.hasSubscriber then 1 else 0)
    decreases |ops|
  {
    if |ops| > 0 {
      var added := StepStarts(x, s, ops[0]);
      CountStartsAppend(s.events, added);
      StartEmittedOnce(x, Step(x, s, ops[0]), ops[1..]);
    }
  }
}
