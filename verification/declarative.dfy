/**
 * The declarative state machine (src/statomata/declarative/state_machine.py).
 * A machine class collects its states and decorated methods once; each
 * machine object then runs a decorated method only from one of the method's
 * source states, inside a visit of the state executor, and afterwards
 * performs the first of the method's transitions out of that state which
 * applies, judged on the object as the method left it.
 */
module Declarative {
  import opened Wrappers
  import opened Errors
  import opened Executors
  import opened Transitions
  import opened Builder
  import opened Registries
  import opened Config
  import MethodCalls
  import Subscribers

  /** How a decorated method call ends. */
  datatype CallResult<T, O> =
    | Returned(outcome: O)
    | InvalidState(actual: Node<State<T>>, expected: set<State<T>>)
    | Raised(error: Error)

  const AsyncMethodMessage: string :=
    "async state machine methods are not allowed in `DeclarativeStateMachine`, consider use `AsyncDeclarativeStateMachine`"

  /** `__normalize_method`: coroutine and async generator functions are refused with a TypeError. */
  function Normalize(func: Func): (r: Result<Func, Error>)
    ensures r.Failure? <==> func.kind == Coroutine || func.kind == AsyncGenerator
    ensures r.Failure? ==> r.error == Raise("TypeError", AsyncMethodMessage)
    ensures r.Success? ==> r.value == func
  {
    if func.kind == Coroutine || func.kind == AsyncGenerator then Failure(Raise("TypeError", AsyncMethodMessage))
    else Success(func)
  }

  /** The states a method may be called in: its transition sources and its idempotent state. */
  function Sources<T, M, O>(options: MethodOptions<T, M, O>): (r: set<State<T>>)
    ensures forall i :: 0 <= i < |options.transitions| ==> options.transitions[i].0 in r
    ensures options.idempotent.Some? ==> options.idempotent.value.state in r
    ensures forall s :: s in r ==> (exists i :: 0 <= i < |options.transitions| && options.transitions[i].0 == s)
                                   || (options.idempotent.Some? && options.idempotent.value.state == s)
  {
    var keys := set i | 0 <= i < |options.transitions| :: options.transitions[i].0;
    if options.idempotent.Some? then keys + {options.idempotent.value.state} else keys
  }

  /**
   * What the wrapped method does in state `current`. A method with an
   * idempotent state skips its function in that state; in any state its
   * outcome is then `returns` of the object, or None without it. A raised
   * error passes through.
   */
  function Body<T, M, O>(options: MethodOptions<T, M, O>, current: State<T>, container: T,
                         invoke: T -> MethodCalls.Invocation<T, O>, none: O): (r: MethodCalls.Invocation<T, O>)
    ensures options.idempotent.None? ==> r == invoke(container)
    ensures options.idempotent.Some? && current == options.idempotent.value.state ==>
              r.container == container && r.result.Success?
    ensures options.idempotent.Some? && current != options.idempotent.value.state ==>
              r.container == invoke(container).container
              && (r.result.Failure? <==> invoke(container).result.Failure?)
              && (r.result.Failure? ==> r.result == invoke(container).result)
    ensures options.idempotent.Some? && r.result.Success? ==>
              r.result.value == (if options.idempotent.value.returning.Some?
                                 then options.idempotent.value.returning.value(r.container) else none)
  {
    match options.idempotent
    case None => invoke(container)
    case Some(idem) =>
      var after := if current == idem.state then MethodCalls.Invocation(container, Success(none)) else invoke(container);
      if after.result.Failure? then after
      else
        var outcome := if idem.returning.Some? then idem.returning.value(after.container) else none;
        MethodCalls.Invocation(after.container, Success(outcome))
  }

  /**
   * One call of a decorated method, on the executor's snapshot and the
   * object's own data, with `ts` the method's transitions out of the
   * current state. Outside the source states nothing happens and
   * InvalidStateError reports the actual and the expected states. Otherwise
   * the state is entered, the body runs; an error is handed to the
   * fallback and raised again, an outcome is reported, the first applicable
   * transition is requested and the state is left.
   */
  function Ran<T, M, O>(x: Setup<State<T>>, s: Snapshot<State<T>, T, O>, container: T, options: MethodOptions<T, M, O>,
                        ts: seq<Transitions.Transition<T, State<T>, M>>, invoke: T -> MethodCalls.Invocation<T, O>, none: O)
    : (r: (Snapshot<State<T>, T, O>, T, CallResult<T, O>))
    ensures r.2.InvalidState? <==> !(s.state.User? && s.state.state in Sources(options))
    ensures r.2.InvalidState? ==> r.0 == s && r.1 == container && r.2 == InvalidState(s.state, Sources(options))
    ensures !r.2.InvalidState? ==> r.0.started && r.0.next == None
    ensures r.2.Raised? ==> r.0.finished == s.finished
    ensures r.2.Returned? ==> r.0.finished == (s.finished || r.0.state.Final?)
  {
    if !(s.state.User? && s.state.state in Sources(options)) then (s, container, InvalidState(s.state, Sources(options)))
    else
      var entered := Started(x, s, container);
      var b := Body(options, s.state.state, container, invoke, none);
      match b.result
      case Failure(err) => (Failed(x, entered, err).0, b.container, Raised(err))
      case Success(outcome) =>
        var reported := Reported(x, entered, b.container, outcome);
        var chosen := FirstMatch(ts, b.container);
        var requested := if chosen.Some? then WithPending(reported, User(Perform(ts[chosen.value], b.container).value)) else reported;
        (Finished(x, requested, b.container), b.container, Returned(outcome))
  }

  /**
   * After a call that ran (between calls nothing is pending): a raised
   * error leaves the object as the function left it and moves to the
   * fallback's state when it has one; an outcome moves along the first
   * transition that applies, or stays.
   */
  lemma CallOutcome<T, M, O>(x: Setup<State<T>>, s: Snapshot<State<T>, T, O>, container: T, options: MethodOptions<T, M, O>,
                             ts: seq<Transitions.Transition<T, State<T>, M>>, invoke: T -> MethodCalls.Invocation<T, O>, none: O)
    requires s.next == None && s.state.User? && s.state.state in Sources(options)
    ensures var r := Ran(x, s, container, options, ts, invoke, none);
            var b := Body(options, s.state.state, container, invoke, none);
            && r.1 == b.container
            && (r.2.Raised? <==> b.result.Failure?)
            && (r.2.Raised? ==>
                  r.2.error == b.result.error
                  && r.0.state == (if Recovers(x, r.2.error) then x.fallback.value(r.2.error).value else s.state))
            && (r.2.Returned? ==>
                  r.2.outcome == b.result.value
                  && r.0.state == (if FirstMatch(ts, b.container).Some?
                                   then User(Perform(ts[FirstMatch(ts, b.container).value], b.container).value)
                                   else s.state))
  {
  }

  /**
   * The notifications of a call that ran: the state is entered (with
   * `start` before the first one), then either the outcome is reported
   * once and the state is left, with a transition when one applies, or
   * the error is reported, with a transition when the fallback gives a
   * state. An outcome is never reported for a call that raised.
   */
  lemma CallNotifications<T, M, O>(x: Setup<State<T>>, s: Snapshot<State<T>, T, O>, container: T, options: MethodOptions<T, M, O>,
                                   ts: seq<Transitions.Transition<T, State<T>, M>>, invoke: T -> MethodCalls.Invocation<T, O>, none: O)
    requires s.next == None && s.state.User? && s.state.state in Sources(options)
    ensures var r := Ran(x, s, container, options, ts, invoke, none);
            var b := Body(options, s.state.state, container, invoke, none);
            var start := (if s.started then [] else [Subscribers.Start(s.state)]) + [Subscribers.StateStart(s.state, container)];
            && (r.2.Returned? ==>
                  r.0.events == s.events + Emit(x, start + [Subscribers.StateOutcome(s.state, b.container, r.2.outcome), Subscribers.StateFinish(s.state, b.container)]
                                                  + (if FirstMatch(ts, b.container).Some? then [Subscribers.TransitionMade(s.state, r.0.state)] else [])))
            && (r.2.Raised? ==>
                  r.0.events == s.events + Emit(x, start + [Subscribers.StateError(s.state, r.2.error)]
                                                  + (if Recovers(x, r.2.error) then [Subscribers.TransitionMade(s.state, r.0.state)] else [])))
  {
  }

  /**
   * A call in the method's idempotent state never runs the function: the
   * object stays as it was and the outcome is `returns` of it.
   */
  lemma IdempotentSkips<T, M, O>(x: Setup<State<T>>, s: Snapshot<State<T>, T, O>, container: T, options: MethodOptions<T, M, O>,
                                 ts: seq<Transitions.Transition<T, State<T>, M>>, invoke: T -> MethodCalls.Invocation<T, O>, none: O)
    requires s.state.User? && options.idempotent.Some? && s.state.state == options.idempotent.value.state
    ensures var r := Ran(x, s, container, options, ts, invoke, none);
            && r.1 == container
            && r.2 == Returned(if options.idempotent.value.returning.Some?
                               then options.idempotent.value.returning.value(container) else none)
  {
  }

  /** The singledispatch table after registering the exception classes of one state. */
  function Registered<T>(table: map<ErrorType, State<T>>, classes: seq<ErrorType>, state: State<T>): (r: map<ErrorType, State<T>>)
    ensures forall c :: c in r <==> c in table || c in classes
    ensures forall c :: c in classes ==> r[c] == state
    ensures forall c :: c in table && c !in classes ==> r[c] == table[c]
  {
    table + map c | c in classes :: state
  }

  /** Registering one more class is one more map update. */
  lemma RegisteredStep<T>(table: map<ErrorType, State<T>>, classes: seq<ErrorType>, j: nat, state: State<T>)
    requires j < |classes|
    ensures Registered(table, classes[..j + 1], state) == Registered(table, classes[..j], state)[classes[j] := state]
  {
    assert classes[..j + 1] == classes[..j] + [classes[j]];
  }

  /**
   * `__setup_fallback`: the fallback states in order, each registered for
   * its exception classes; a later registration of a class replaces an
   * earlier one.
   */
  function FallbackTable<T>(fallbacks: seq<State<T>>): map<ErrorType, State<T>> {
    if |fallbacks| == 0 then map[]
    else
      var last := fallbacks[|fallbacks| - 1];
      Registered(FallbackTable(fallbacks[..|fallbacks| - 1]), FallbackClasses(last), last)
  }

  /**
   * An exception class is in the table exactly when some fallback state
   * catches it, and it maps to the last such state.
   */
  lemma {:induction false} FallbackLastWins<T>(fallbacks: seq<State<T>>, c: ErrorType)
    ensures c in FallbackTable(fallbacks) <==> exists i :: 0 <= i < |fallbacks| && c in FallbackClasses(fallbacks[i])
    ensures c in FallbackTable(fallbacks) ==>
              exists i :: 0 <= i < |fallbacks| && c in FallbackClasses(fallbacks[i]) && FallbackTable(fallbacks)[c] == fallbacks[i]
                          && forall j :: i < j < |fallbacks| ==> c !in FallbackClasses(fallbacks[j])
  {
    if |fallbacks| > 0 {
      var n := |fallbacks| - 1;
      var prefix := fallbacks[..n];
      var last := fallbacks[n];
      FallbackLastWins(prefix, c);
      var table := FallbackTable(fallbacks);
      assert table == Registered(FallbackTable(prefix), FallbackClasses(last), last);
      if c in FallbackClasses(last) {
        assert table[c] == fallbacks[n];
      } else if c in FallbackTable(prefix) {
        var i :| 0 <= i < n && c in FallbackClasses(prefix[i]) && FallbackTable(prefix)[c] == prefix[i]
                 && forall j :: i < j < n ==> c !in FallbackClasses(prefix[j]);
        assert prefix[i] == fallbacks[i];
        forall j | i < j < |fallbacks|
          ensures c !in FallbackClasses(fallbacks[j])
        {
          if j < n {
            assert prefix[j] == fallbacks[j];
          }
        }
        assert table[c] == fallbacks[i];
      } else {
        forall i | 0 <= i < |fallbacks|
          ensures c !in FallbackClasses(fallbacks[i])
        {
          if i < n {
            assert prefix[i] == fallbacks[i];
          }
        }
      }
    }
  }

  /** `__setup_fallback` as it runs: a loop over the states and, inside, over their classes. */
  method SetupFallback<T>(fallbacks: seq<State<T>>) returns (table: map<ErrorType, State<T>>)
    ensures table == FallbackTable(fallbacks)
  {
    table := map[];
    for i := 0 to |fallbacks|
      invariant table == FallbackTable(fallbacks[..i])
    {
      var state := fallbacks[i];
      var classes := FallbackClasses(state);
      ghost var before := table;
      for j := 0 to |classes|
        invariant table == Registered(before, classes[..j], state)
      {
        RegisteredStep(before, classes, j, state);
        table := table[classes[j] := state];
      }
      assert classes[..|classes|] == classes;
      assert fallbacks[..i + 1][..i] == fallbacks[..i];
    }
    assert fallbacks[..|fallbacks|] == fallbacks;
  }

  /**
   * The singledispatch lookup: the first class of the error's method
   * resolution order that has a registered state; without one the handler
   * answers None.
   */
  function Resolve<T>(table: map<ErrorType, State<T>>, classes: seq<ErrorType>): (r: Option<State<T>>)
    ensures r.None? <==> forall i :: 0 <= i < |classes| ==> classes[i] !in table
    ensures r.Some? ==> exists i :: 0 <= i < |classes| && classes[i] in table && r.value == table[classes[i]]
                                   && forall j :: 0 <= j < i ==> classes[j] !in table
  {
    if |classes| == 0 then None
    else if classes[0] in table then Some(table[classes[0]])
    else
      var r := Resolve(table, classes[1..]);
      assert forall i :: 1 <= i < |classes| ==> classes[i] == classes[1..][i - 1];
      r
  }

  /** The fallback handed to the executor. */
  function FallbackOf<T>(table: map<ErrorType, State<T>>): Error -> Option<Node<State<T>>> {
    (err: Error) => if Resolve(table, err.classes).Some? then Some(User(Resolve(table, err.classes).value)) else None
  }

  /**
   * A state declared with `fallback=True` catches every exception, since
   * every exception class derives from `Exception`.
   */
  lemma {:induction false} CatchAll<T>(fallbacks: seq<State<T>>, k: nat, err: Error)
    requires k < |fallbacks| && fallbacks[k].fallback == Flag(true) && err.Valid()
    ensures Resolve(FallbackTable(fallbacks), err.classes).Some?
  {
    assert ExceptionType in FallbackClasses(fallbacks[k]);
    FallbackLastWins(fallbacks, ExceptionType);
    assert err.classes[|err.classes| - 1] in FallbackTable(fallbacks);
  }

  /** The transitions registered for one source state in a method's options, in order. */
  function TableFor<T, M>(entries: seq<(State<T>, seq<Transitions.Transition<T, State<T>, M>>)>, source: State<T>)
    : seq<Transitions.Transition<T, State<T>, M>>
  {
    if |entries| == 0 then []
    else
      var last := entries[|entries| - 1];
      TableFor(entries[..|entries| - 1], source) + (if last.0 == source then last.1 else [])
  }

  /** The transitions `__setup_methods` registers under `(func, source)`, in order. */
  function RegisteredFor<T, M, O>(methods: seq<(Func, MethodOptions<T, M, O>)>, key: (Func, State<T>))
    : seq<Transitions.Transition<T, State<T>, M>>
  {
    if |methods| == 0 then []
    else
      var last := methods[|methods| - 1];
      RegisteredFor(methods[..|methods| - 1], key) + (if last.0 == key.0 then TableFor(last.1.transitions, key.1) else [])
  }

  /** With distinct sources, a source's table is its own entry, and a state that is no source has none. */
  lemma {:induction false} TableForEntry<T, M>(entries: seq<(State<T>, seq<Transitions.Transition<T, State<T>, M>>)>, source: State<T>)
    requires forall i, j :: 0 <= i < j < |entries| ==> entries[i].0 != entries[j].0
    ensures forall i :: 0 <= i < |entries| && entries[i].0 == source ==> TableFor(entries, source) == entries[i].1
    ensures (forall i :: 0 <= i < |entries| ==> entries[i].0 != source) ==> TableFor(entries, source) == []
  {
    if |entries| > 0 {
      var n := |entries| - 1;
      TableForEntry(entries[..n], source);
      assert forall i :: 0 <= i < n ==> entries[..n][i] == entries[i];
    }
  }

  /** With distinct methods, a key's transitions are those of its method's options. */
  lemma {:induction false} RegisteredForMethod<T, M, O>(methods: seq<(Func, MethodOptions<T, M, O>)>, k: nat, source: State<T>)
    requires Distinct(Keys(methods)) && k < |methods|
    ensures RegisteredFor(methods, (methods[k].0, source)) == TableFor(methods[k].1.transitions, source)
  {
    var n := |methods| - 1;
    var prefix := methods[..n];
    assert forall i :: 0 <= i < n ==> prefix[i] == methods[i];
    assert Keys(prefix) == Keys(methods)[..n];
    if k < n {
      RegisteredForMethod(prefix, k, source);
    } else {
      RegisteredForNone(prefix, methods[k].0, source);
    }
  }

  /** A function with no options has no transitions. */
  lemma {:induction false} RegisteredForNone<T, M, O>(methods: seq<(Func, MethodOptions<T, M, O>)>, f: Func, source: State<T>)
    requires f !in Keys(methods)
    ensures RegisteredFor(methods, (f, source)) == []
  {
    if |methods| > 0 {
      var n := |methods| - 1;
      assert Keys(methods[..n]) == Keys(methods)[..n];
      RegisteredForNone(methods[..n], f, source);
    }
  }

  /** What `__init_subclass__` prepares once per machine class. */
  class MachineClass<T, M(==), O> {
    const registry: MachineRegistry<T, M, O>
    const transitions: TransitionExecutor<(Func, State<T>), T, State<T>, M>
    const fallbackTable: map<ErrorType, State<T>>
    /** The outcome value standing for Python's None. */
    const none: O

    constructor (registry: MachineRegistry<T, M, O>, transitions: TransitionExecutor<(Func, State<T>), T, State<T>, M>,
                 fallbackTable: map<ErrorType, State<T>>, none: O)
      ensures this.registry == registry && this.transitions == transitions
      ensures this.fallbackTable == fallbackTable && this.none == none
    {
      this.registry := registry;
      this.transitions := transitions;
      this.fallbackTable := fallbackTable;
      this.none := none;
    }
  }

  /**
   * `__init_subclass__` with the default configurator: a fresh transition
   * executor, the fallback table of the registry's fallback states, and
   * every method's transitions added under `(method, source)`. An async
   * method makes the class definition fail with a TypeError.
   */
  method Define<T, M(==), O>(registry: MachineRegistry<T, M, O>, none: O) returns (r: Result<MachineClass<T, M, O>, Error>)
    ensures r.Failure? <==> exists i :: 0 <= i < |registry.methods| && Normalize(registry.methods[i].0).Failure?
    ensures r.Failure? ==> r.error == Raise("TypeError", AsyncMethodMessage)
    ensures r.Success? ==> fresh(r.value) && fresh(r.value.transitions) && r.value.registry == registry && r.value.none == none
    ensures r.Success? ==> r.value.fallbackTable == FallbackTable(registry.Fallbacks())
    ensures r.Success? ==> forall key :: r.value.transitions.Lookup(key) == RegisteredFor(registry.methods, key)
  {
    var transitions := new TransitionExecutor(map[]);
    assert transitions.transitions == map[];
    var table := SetupFallback(registry.Fallbacks());
    var methods := registry.methods;
    for i := 0 to |methods|
      invariant transitions.transitions == SetupTable(methods[..i])
      invariant forall j :: 0 <= j < i ==> Normalize(methods[j].0).Success?
    {
      var func := methods[i].0;
      var normalized := Normalize(func);
      if normalized.Failure? {
        return Failure(normalized.error);
      }
      AddMethod(transitions, func, methods[i].1.transitions);
      assert methods[..i + 1][..i] == methods[..i];
    }
    assert methods[..|methods|] == methods;
    var cls := new MachineClass(registry, transitions, table, none);
    forall key
      ensures cls.transitions.Lookup(key) == RegisteredFor(registry.methods, key)
    {
      SetupTableAt(methods, key);
    }
    r := Success(cls);
  }

  /** A key's list in a transition table; a missing key has none. */
  function At<K, X>(m: map<K, seq<X>>, key: K): seq<X> {
    if key in m then m[key] else []
  }

  /** The table after adding one method's transitions, source by source. */
  function Extended<T, M>(m: map<(Func, State<T>), seq<Transitions.Transition<T, State<T>, M>>>, func: Func,
                          entries: seq<(State<T>, seq<Transitions.Transition<T, State<T>, M>>)>)
    : map<(Func, State<T>), seq<Transitions.Transition<T, State<T>, M>>>
  {
    if |entries| == 0 then m
    else
      var last := entries[|entries| - 1];
      var prev := Extended(m, func, entries[..|entries| - 1]);
      prev[(func, last.0) := At(prev, (func, last.0)) + last.1]
  }

  /** Adding a method's transitions appends, under each of its sources, that source's transitions. */
  lemma {:induction false} ExtendedAt<T, M>(m: map<(Func, State<T>), seq<Transitions.Transition<T, State<T>, M>>>, func: Func,
                                            entries: seq<(State<T>, seq<Transitions.Transition<T, State<T>, M>>)>,
                                            key: (Func, State<T>))
    ensures At(Extended(m, func, entries), key) == At(m, key) + (if key.0 == func then TableFor(entries, key.1) else [])
  {
    if |entries| > 0 {
      var n := |entries| - 1;
      ExtendedAt(m, func, entries[..n], key);
      if key.0 == func {
        var before := TableFor(entries[..n], key.1);
        var step := if entries[n].0 == key.1 then entries[n].1 else [];
        assert At(m, key) + before + step == At(m, key) + (before + step);
      }
    }
  }

  /** The table `__setup_methods` builds from the methods, in order. */
  function SetupTable<T, M, O>(methods: seq<(Func, MethodOptions<T, M, O>)>)
    : map<(Func, State<T>), seq<Transitions.Transition<T, State<T>, M>>>
  {
    if |methods| == 0 then map[]
    else
      var last := methods[|methods| - 1];
      Extended(SetupTable(methods[..|methods| - 1]), last.0, last.1.transitions)
  }

  /** Every key of the built table holds exactly what the methods registered under it. */
  lemma {:induction false} SetupTableAt<T, M, O>(methods: seq<(Func, MethodOptions<T, M, O>)>, key: (Func, State<T>))
    ensures At(SetupTable(methods), key) == RegisteredFor(methods, key)
  {
    if |methods| > 0 {
      var n := |methods| - 1;
      SetupTableAt(methods[..n], key);
      ExtendedAt(SetupTable(methods[..n]), methods[n].0, methods[n].1.transitions, key);
    }
  }

  /** The inner loop of `__setup_methods`: one method's transitions, source by source. */
  method AddMethod<T, M(==)>(transitions: TransitionExecutor<(Func, State<T>), T, State<T>, M>, func: Func,
                             entries: seq<(State<T>, seq<Transitions.Transition<T, State<T>, M>>)>)
    modifies transitions
    ensures transitions.transitions == Extended(old(transitions.transitions), func, entries)
  {
    ghost var initial := transitions.transitions;
    for j := 0 to |entries|
      invariant transitions.transitions == Extended(initial, func, entries[..j])
    {
      assert entries[..j + 1][..j] == entries[..j];
      transitions.AddTransitions((func, entries[j].0), entries[j].1);
    }
    assert entries[..|entries|] == entries;
  }

  /** A declarative machine object: its executor and the rest of its data. */
  class DeclarativeStateMachine<T, M(==), O> {
    const cls: MachineClass<T, M, O>
    const executor: StateMachineExecutor<State<T>, T, O>
    /** The object's own attributes, which its methods read and change. */
    var container: T

    constructor (cls: MachineClass<T, M, O>, executor: StateMachineExecutor<State<T>, T, O>, container: T)
      ensures this.cls == cls && this.executor == executor && this.container == container
    {
      this.cls := cls;
      this.executor := executor;
      this.container := container;
    }

    /** `current_state`. */
    function CurrentState(): Node<State<T>>
      reads executor
    {
      executor.state
    }

    /** The transitions of `func` out of state `st`. */
    function TableAt(func: Func, st: Node<State<T>>): seq<Transitions.Transition<T, State<T>, M>>
      reads cls.transitions
    {
      if st.User? then cls.transitions.Lookup((func, st.state)) else []
    }

    /**
     * A call of the decorated method `func` (the wrapper `__wrap_method`
     * builds around `__run`), one call at a time (the lock).
     */
    method Call(func: Func, invoke: T -> MethodCalls.Invocation<T, O>) returns (r: CallResult<T, O>)
      requires func in Keys(cls.registry.methods)
      modifies this`container, executor
      ensures (executor.Snap(), container, r) ==
              Ran(executor.Conf(), old(executor.Snap()), old(container), Get(cls.registry.methods, func).value,
                  TableAt(func, old(executor.state)), invoke, cls.none)
    {
      var options := Get(cls.registry.methods, func).value;
      var current := CurrentState();
      var sources := Sources(options);
      if !(current.User? && current.state in sources) {
        return InvalidState(current, sources);
      }
      executor.StartState(container);
      var b := Body(options, current.state, container, invoke, cls.none);
      container := b.container;
      match b.result {
        case Failure(err) =>
          var _ := executor.HandleStateError(err);
          r := Raised(err);
        case Success(outcome) =>
          executor.HandleOutcome(container, outcome);
          var _ := cls.transitions.Execute((func, current.state), container, executor);
          executor.FinishState(container);
          r := Returned(outcome);
      }
    }
  }

  /**
   * `__init__`: the machine starts in the given state, or else in the
   * registry's initial state, whose absence or ambiguity is an error. Its
   * executor's fallback is the class's table.
   */
  method Create<T, M(==), O, Sub>(cls: MachineClass<T, M, O>, initial: Option<State<T>>, subscribers: seq<Sub>, container: T)
    returns (r: Result<DeclarativeStateMachine<T, M, O>, Error>)
    ensures initial.None? && cls.registry.Initial().Failure? ==> r == Failure(cls.registry.Initial().error)
    ensures initial.Some? || cls.registry.Initial().Success? ==> r.Success?
    ensures r.Success? ==> fresh(r.value) && fresh(r.value.executor) && r.value.cls == cls && r.value.container == container
    ensures r.Success? ==> r.value.executor.Conf() == Setup(Some(FallbackOf(cls.fallbackTable)), |subscribers| > 0)
    ensures r.Success? ==>
              r.value.executor.Snap() == Fresh<State<T>, T, O>(User(if initial.Some? then initial.value else cls.registry.Initial().value))
  {
    var start: State<T>;
    if initial.Some? {
      start := initial.value;
    } else {
      var found := cls.registry.Initial();
      if found.Failure? {
        return Failure(found.error);
      }
      start := found.value;
    }
    var executor := CreateStateExecutor<T, O, Sub>(start, Some(FallbackOf(cls.fallbackTable)), subscribers);
    var machine := new DeclarativeStateMachine(cls, executor, container);
    r := Success(machine);
  }
}
