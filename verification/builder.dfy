/**
 * The declarative builder (src/statomata/declarative/builder.py): `State`
 * objects declared on a machine class, the `Transition` builders their
 * decorators create, and the registries that collect them. Builders are
 * objects: a transition is registered by reference, so a later `to` or
 * `when` on the same builder changes what the registry holds.
 */
module Builder {
  import opened Wrappers
  import opened Errors

  /** How a method function is defined, as `inspect` tells them apart. */
  datatype FuncKind = Plain | Generator | Coroutine | AsyncGenerator

  /** A method function of the machine class. */
  datatype Func = Func(name: string, kind: FuncKind)

  /**
   * The `fallback` option of a state: a flag, one exception class, or a
   * sequence of exception classes.
   */
  datatype Fallback = Flag(on: bool) | Single(cls: ErrorType) | Many(classes: seq<ErrorType>)

  /** Python truthiness of a fallback option: a class is truthy, a sequence when not empty. */
  predicate Truthy(f: Fallback) {
    match f
    case Flag(on) => on
    case Single(_) => true
    case Many(classes) => |classes| > 0
  }

  /** A transition condition: a predicate on the machine, or a property, whose getter may be missing. */
  datatype Condition<!T> = Callable(test: T -> bool) | Property(fget: Option<T -> bool>)

  /** A condition that can be read: a callable, or a property with a getter. */
  predicate Readable<T>(c: Condition<T>) {
    c.Callable? || c.fget.Some?
  }

  /** The predicate a readable condition computes. */
  function Test<T>(c: Condition<T>): T -> bool
    requires Readable(c)
  {
    if c.Callable? then c.test else c.fget.value
  }

  /**
   * The condition `when_not` installs: a callable that holds exactly when
   * the given condition does not. A property without a getter is refused
   * with a TypeError.
   */
  function Negate<T>(c: Condition<T>): (r: Result<Condition<T>, Error>)
    ensures r.Failure? <==> !Readable(c)
    ensures r.Failure? ==> r.error == Raise("TypeError", "property fget method must be set")
    ensures r.Success? ==> r.value.Callable?
  {
    if Readable(c) then
      var test := Test(c);
      Success(Callable(obj => !test(obj)))
    else Failure(Raise("TypeError", "property fget method must be set"))
  }

  /** The negated condition holds on an object exactly when the original does not. */
  lemma NegateHolds<T>(c: Condition<T>, obj: T)
    requires Readable(c)
    ensures Negate(c).Success? && Negate(c).value.test(obj) == !Test(c)(obj)
  {
  }

  /** The elements of `xs` that satisfy `p`, in their order. */
  function Filter<X>(xs: seq<X>, p: X -> bool): (r: seq<X>)
    ensures forall i :: 0 <= i < |r| ==> r[i] in xs && p(r[i])
    ensures forall i :: 0 <= i < |xs| && p(xs[i]) ==> xs[i] in r
    ensures |r| <= |xs|
  {
    if |xs| == 0 then []
    else if p(xs[0]) then [xs[0]] + Filter(xs[1..], p)
    else Filter(xs[1..], p)
  }

  /** Position `i` is the only one whose element satisfies `p`. */
  ghost predicate OnlyAt<X>(xs: seq<X>, p: X -> bool, i: int) {
    0 <= i < |xs| && p(xs[i]) && forall j :: 0 <= j < |xs| && j != i ==> !p(xs[j])
  }

  /** Filtering keeps the order: it distributes over concatenation. */
  lemma {:induction false} FilterAppend<X>(a: seq<X>, b: seq<X>, p: X -> bool)
    ensures Filter(a + b, p) == Filter(a, p) + Filter(b, p)
  {
    if |a| > 0 {
      assert (a + b)[1..] == a[1..] + b;
      FilterAppend(a[1..], b, p);
    } else {
      assert a + b == b;
    }
  }

  /** Exactly one element survives the filter when exactly one position satisfies `p`. */
  lemma {:induction false} FilterSingle<X>(xs: seq<X>, p: X -> bool)
    ensures |Filter(xs, p)| == 1 <==> exists i :: OnlyAt(xs, p, i)
    ensures forall i :: OnlyAt(xs, p, i) ==> Filter(xs, p) == [xs[i]]
  {
    if |xs| > 0 {
      var tail := xs[1..];
      FilterSingle(tail, p);
      forall i | OnlyAt(xs, p, i) && i > 0
        ensures OnlyAt(tail, p, i - 1)
      {
        forall j | 0 <= j < |tail| && j != i - 1
          ensures !p(tail[j])
        {
          assert tail[j] == xs[j + 1];
        }
      }
      if p(xs[0]) {
        if exists i :: OnlyAt(xs, p, i) {
          var i :| OnlyAt(xs, p, i);
          assert i == 0;
          forall j | 0 <= j < |tail|
            ensures !p(tail[j])
          {
            assert tail[j] == xs[j + 1];
          }
          FilterNone(tail, p);
        }
        if |Filter(xs, p)| == 1 {
          assert Filter(tail, p) == [];
          forall j | 0 <= j < |xs| && j != 0
            ensures !p(xs[j])
          {
            assert xs[j] in tail;
          }
          assert OnlyAt(xs, p, 0);
        }
      } else {
        if |Filter(xs, p)| == 1 {
          var k :| OnlyAt(tail, p, k);
          assert OnlyAt(xs, p, k + 1);
        }
      }
    }
  }

  /** Nothing survives the filter when no element satisfies `p`. */
  lemma {:induction false} FilterAll<X>(xs: seq<X>, p: X -> bool)
    requires forall i :: 0 <= i < |xs| ==> p(xs[i])
    ensures Filter(xs, p) == xs
  {
    if |xs| > 0 {
      assert forall i :: 0 <= i < |xs[1..]| ==> xs[1..][i] == xs[i + 1];
      FilterAll(xs[1..], p);
    }
  }

  lemma {:induction false} FilterNone<X>(xs: seq<X>, p: X -> bool)
    requires forall i :: 0 <= i < |xs| ==> !p(xs[i])
    ensures Filter(xs, p) == []
  {
    if |xs| > 0 {
      assert forall i :: 0 <= i < |xs[1..]| ==> xs[1..][i] == xs[i + 1];
      FilterNone(xs[1..], p);
    }
  }

  /**
   * The initial state of a list of states: the only one flagged initial.
   * With none the error is "initial state is not set", with several it is
   * "initial state ambiguity"; both are raised as class `cls`.
   */
  function InitialOf<T>(states: seq<State<T>>, cls: ErrorType): (r: Result<State<T>, Error>)
    ensures r.Success? <==> exists i :: OnlyAt(states, IsInitial, i)
    ensures r.Success? ==> exists i :: OnlyAt(states, IsInitial, i) && r.value == states[i]
    ensures r.Failure? && (forall i :: 0 <= i < |states| ==> !states[i].initial) ==> r.error == Raise(cls, "initial state is not set")
    ensures r.Failure? && (exists i :: 0 <= i < |states| && states[i].initial) ==> r.error == Raise(cls, "initial state ambiguity")
  {
    var initials := Filter(states, IsInitial);
    FilterSingle(states, IsInitial);
    assert |initials| > 0 ==> exists j :: 0 <= j < |states| && states[j] == initials[0];
    if |initials| == 0 then Failure(Raise(cls, "initial state is not set"))
    else if |initials| > 1 then Failure(Raise(cls, "initial state ambiguity"))
    else
      assert exists i :: OnlyAt(states, IsInitial, i) && initials[0] == states[i] by {
        var i :| OnlyAt(states, IsInitial, i);
        assert initials == [states[i]];
      }
      Success(initials[0])
  }

  /** The final states, in order; with none the error is "final state is not set", of class `cls`. */
  function FinalsOf<T>(states: seq<State<T>>, cls: ErrorType): (r: Result<seq<State<T>>, Error>)
    ensures r.Failure? <==> forall i :: 0 <= i < |states| ==> !states[i].final
    ensures r.Failure? ==> r.error == Raise(cls, "final state is not set")
    ensures r.Success? ==> r.value == Filter(states, IsFinal) && |r.value| > 0
    ensures r.Success? ==> forall i :: 0 <= i < |r.value| ==> r.value[i] in states && r.value[i].final
    ensures r.Success? ==> forall i :: 0 <= i < |states| && states[i].final ==> states[i] in r.value
  {
    var finals := Filter(states, IsFinal);
    assert |finals| > 0 ==> exists j :: 0 <= j < |states| && states[j] == finals[0];
    if |finals| == 0 then Failure(Raise(cls, "final state is not set")) else Success(finals)
  }

  /** The states whose fallback option is truthy, in order. */
  function FallbacksOf<T>(states: seq<State<T>>): (r: seq<State<T>>)
    ensures forall i :: 0 <= i < |r| ==> r[i] in states && Truthy(r[i].fallback)
    ensures forall i :: 0 <= i < |states| && Truthy(states[i].fallback) ==> states[i] in r
    ensures r == Filter(states, HasFallback)
  {
    Filter(states, HasFallback)
  }

  predicate IsInitial<T>(s: State<T>) { s.initial }
  predicate IsFinal<T>(s: State<T>) { s.final }
  predicate HasFallback<T>(s: State<T>) { Truthy(s.fallback) }

  /** `StateRegistry`: the states of a machine class, in declaration order. */
  datatype StateRegistry<T> = StateRegistry(states: seq<State<T>>)
  {
    function Initial(): (r: Result<State<T>, Error>)
      ensures r == InitialOf(states, "ValueError")
      ensures r.Success? ==> r.value in states && r.value.initial
    {
      InitialOf(states, "ValueError")
    }

    function Finals(): (r: Result<seq<State<T>>, Error>)
      ensures r == FinalsOf(states, "ValueError")
      ensures r.Failure? <==> forall i :: 0 <= i < |states| ==> !states[i].final
    {
      FinalsOf(states, "ValueError")
    }

    function Fallbacks(): (r: seq<State<T>>)
      ensures r == FallbacksOf(states)
      ensures forall i :: 0 <= i < |states| && Truthy(states[i].fallback) ==> states[i] in r
    {
      FallbacksOf(states)
    }
  }

  /**
   * `TransitionRegistry`: for each method, in the order methods were first
   * registered, the transition builders registered for it.
   */
  class TransitionRegistry<T> {
    var funcs: seq<Func>
    var table: map<Func, seq<Transition<T>>>

    /** The keys are exactly the listed methods, each listed once. */
    ghost predicate Valid()
      reads this
    {
      (forall f :: f in table <==> f in funcs)
      && forall i, j :: 0 <= i < j < |funcs| ==> funcs[i] != funcs[j]
    }

    function Lookup(func: Func): seq<Transition<T>>
      reads this
    {
      if func in table then table[func] else []
    }

    constructor ()
      ensures Valid() && funcs == [] && table == map[]
    {
      funcs := [];
      table := map[];
    }

    /**
     * `register`: coroutine functions are refused with a TypeError and the
     * registry stays as it was; any other function gets the builder appended
     * to its list, and becomes the last method when it is new.
     */
    method Register(func: Func, def: Transition<T>) returns (r: Result<Func, Error>)
      modifies this
      ensures func.kind == Coroutine ==> r == Failure(Raise("TypeError", "coroutine functions is not supported"))
      ensures func.kind == Coroutine ==> funcs == old(funcs) && table == old(table)
      ensures func.kind != Coroutine ==> r == Success(func)
      ensures func.kind != Coroutine ==> table == old(table)[func := old(Lookup(func)) + [def]]
      ensures func.kind != Coroutine ==> funcs == old(funcs) + (if func in old(table) then [] else [func])
      ensures old(Valid()) ==> Valid()
    {
      if func.kind == Coroutine {
        return Failure(Raise("TypeError", "coroutine functions is not supported"));
      }
      if func !in table {
        funcs := funcs + [func];
      }
      table := table[func := Lookup(func) + [def]];
      r := Success(func);
    }
  }

  /** A declared state. Only its name is ever reassigned, by the configurator. */
  class State<T> {
    var name: Option<string>
    const initial: bool
    const final: bool
    const fallback: Fallback
    const transitions: TransitionRegistry<T>

    /** With no registry given, the state gets a fresh empty one of its own. */
    constructor (name: Option<string>, initial: bool, final: bool, fallback: Fallback, transitions: Option<TransitionRegistry<T>>)
      ensures this.name == name && this.initial == initial && this.final == final && this.fallback == fallback
      ensures transitions.Some? ==> this.transitions == transitions.value
      ensures transitions.None? ==> fresh(this.transitions) && this.transitions.Valid() && this.transitions.table == map[]
    {
      this.name := name;
      this.initial := initial;
      this.final := final;
      this.fallback := fallback;
      if transitions.Some? {
        this.transitions := transitions.value;
      } else {
        this.transitions := new TransitionRegistry();
      }
    }

    /** `to`: a fresh builder from this state to `destination`, not yet registered. */
    method To(destination: State<T>) returns (t: Transition<T>)
      ensures fresh(t) && t.registry == transitions && t.source == this
      ensures t.destination == Some(destination) && t.condition.None?
    {
      t := new Transition(transitions, this, None, None);
      t := t.To(destination);
    }

    /** `when`: a fresh builder from this state, guarded by `condition`, with no destination yet. */
    method When(condition: Condition<T>) returns (t: Transition<T>)
      ensures fresh(t) && t.registry == transitions && t.source == this
      ensures t.destination.None? && t.condition == Some(condition)
    {
      t := new Transition(transitions, this, None, None);
      t := t.When(condition);
    }

    /** `when_not`: a fresh builder guarded by the negated condition, or the TypeError of `Negate`. */
    method WhenNot(condition: Condition<T>) returns (r: Result<Transition<T>, Error>)
      ensures r.Failure? <==> Negate(condition).Failure?
      ensures r.Failure? ==> r.error == Negate(condition).error
      ensures r.Success? ==> fresh(r.value) && r.value.registry == transitions && r.value.source == this
      ensures r.Success? ==> r.value.destination.None? && r.value.condition == Some(Negate(condition).value)
    {
      var t := new Transition(transitions, this, None, None);
      r := t.WhenNot(condition);
    }

    /** `ternary`: a two-way transition out of this state. */
    method Ternary(condition: Condition<T>) returns (r: Result<TernaryTransition<T>, Error>)
      ensures r.Failure? <==> Negate(condition).Failure?
      ensures r.Failure? ==> r.error == Negate(condition).error
      ensures r.Success? ==> fresh(r.value) && fresh(r.value.whenTrue) && fresh(r.value.otherwise)
      ensures r.Success? ==> r.value.Valid() && r.value.registry == transitions && r.value.source == this
      ensures r.Success? ==> r.value.whenTrue.destination.None? && r.value.whenTrue.condition == Some(condition)
      ensures r.Success? ==> r.value.otherwise.destination == Some(this)
                             && r.value.otherwise.condition == Some(Negate(condition).value)
    {
      r := MakeTernary(transitions, this, condition);
    }

    /**
     * Decorating a method with the state itself registers an unconditional
     * transition from the state back to itself.
     */
    method Call(func: Func) returns (r: Result<Func, Error>)
      modifies transitions
      ensures func.kind == Coroutine ==> r == Failure(Raise("TypeError", "coroutine functions is not supported")) && transitions.table == old(transitions.table)
      ensures func.kind != Coroutine ==> r == Success(func)
      ensures func.kind != Coroutine ==>
                |transitions.Lookup(func)| == |old(transitions.Lookup(func))| + 1
                && transitions.Lookup(func)[..|old(transitions.Lookup(func))|] == old(transitions.Lookup(func))
                && var t := transitions.Lookup(func)[|old(transitions.Lookup(func))|];
                   fresh(t) && t.source == this && t.destination == Some(this) && t.condition.None?
      ensures forall f :: f != func ==> transitions.Lookup(f) == old(transitions.Lookup(f))
    {
      var t := To(this);
      r := t.Call(func);
    }
  }

  /** `Transition`: one builder, registered in `registry` when it decorates a method. */
  class Transition<T> {
    const registry: TransitionRegistry<T>
    const source: State<T>
    var destination: Option<State<T>>
    var condition: Option<Condition<T>>

    constructor (registry: TransitionRegistry<T>, source: State<T>, destination: Option<State<T>>, condition: Option<Condition<T>>)
      ensures this.registry == registry && this.source == source
      ensures this.destination == destination && this.condition == condition
    {
      this.registry := registry;
      this.source := source;
      this.destination := destination;
      this.condition := condition;
    }

    /** `to` overwrites the destination and hands back the same builder. */
    method To(destination: State<T>) returns (self: Transition<T>)
      modifies this`destination
      ensures self == this && this.destination == Some(destination)
    {
      this.destination := Some(destination);
      self := this;
    }

    /** `when` overwrites the condition and hands back the same builder. */
    method When(condition: Condition<T>) returns (self: Transition<T>)
      modifies this`condition
      ensures self == this && this.condition == Some(condition)
    {
      this.condition := Some(condition);
      self := this;
    }

    /** `when_not` installs the negated condition, or refuses a property without a getter. */
    method WhenNot(condition: Condition<T>) returns (r: Result<Transition<T>, Error>)
      modifies this`condition
      ensures r.Failure? <==> Negate(condition).Failure?
      ensures r.Failure? ==> r.error == Negate(condition).error && this.condition == old(this.condition)
      ensures r.Success? ==> r.value == this && this.condition == Some(Negate(condition).value)
    {
      var negated := Negate(condition);
      if negated.Failure? {
        return Failure(negated.error);
      }
      var self := When(negated.value);
      r := Success(self);
    }

    /** `ternary` starts a two-way transition from the same source; this builder's own fields are not used. */
    method Ternary(condition: Condition<T>) returns (r: Result<TernaryTransition<T>, Error>)
      ensures r.Failure? <==> Negate(condition).Failure?
      ensures r.Failure? ==> r.error == Negate(condition).error
      ensures r.Success? ==> fresh(r.value) && fresh(r.value.whenTrue) && fresh(r.value.otherwise)
      ensures r.Success? ==> r.value.Valid() && r.value.registry == registry && r.value.source == source
      ensures r.Success? ==> r.value.whenTrue.destination.None? && r.value.whenTrue.condition == Some(condition)
      ensures r.Success? ==> r.value.otherwise.destination == Some(source)
                             && r.value.otherwise.condition == Some(Negate(condition).value)
    {
      r := MakeTernary(registry, source, condition);
    }

    /** Decorating a method registers this very builder for it. */
    method Call(func: Func) returns (r: Result<Func, Error>)
      modifies registry
      ensures func.kind == Coroutine ==> r == Failure(Raise("TypeError", "coroutine functions is not supported")) && registry.table == old(registry.table)
      ensures func.kind != Coroutine ==> r == Success(func) && registry.Lookup(func) == old(registry.Lookup(func)) + [this]
      ensures forall f :: f != func ==> registry.Lookup(f) == old(registry.Lookup(f))
    {
      r := registry.Register(func, this);
    }
  }

  /**
   * `TernaryTransition`: two builders from one source, the first guarded by
   * the condition and the second by its negation, going back to the source
   * unless told otherwise.
   */
  method MakeTernary<T>(registry: TransitionRegistry<T>, source: State<T>, condition: Condition<T>)
    returns (r: Result<TernaryTransition<T>, Error>)
    ensures r.Failure? <==> Negate(condition).Failure?
    ensures r.Failure? ==> r.error == Negate(condition).error
    ensures r.Success? ==> fresh(r.value) && fresh(r.value.whenTrue) && fresh(r.value.otherwise)
    ensures r.Success? ==> r.value.Valid() && r.value.registry == registry && r.value.source == source
    ensures r.Success? ==> r.value.whenTrue.destination.None? && r.value.whenTrue.condition == Some(condition)
    ensures r.Success? ==> r.value.otherwise.destination == Some(source)
                           && r.value.otherwise.condition == Some(Negate(condition).value)
  {
    var negated := Negate(condition);
    if negated.Failure? {
      return Failure(negated.error);
    }
    var whenTrue := new Transition(registry, source, None, Some(condition));
    var otherwise := new Transition(registry, source, Some(source), Some(negated.value));
    var ternary := new TernaryTransition(registry, source, whenTrue, otherwise);
    r := Success(ternary);
  }

  class TernaryTransition<T> {
    const registry: TransitionRegistry<T>
    const source: State<T>
    const whenTrue: Transition<T>
    const otherwise: Transition<T>

    /** Both builders are distinct and register in this ternary's registry. */
    predicate Valid() {
      whenTrue.registry == registry && otherwise.registry == registry && whenTrue != otherwise
    }

    constructor (registry: TransitionRegistry<T>, source: State<T>, whenTrue: Transition<T>, otherwise: Transition<T>)
      requires whenTrue.registry == registry && otherwise.registry == registry && whenTrue != otherwise
      ensures Valid() && this.registry == registry && this.source == source
      ensures this.whenTrue == whenTrue && this.otherwise == otherwise
    {
      this.registry := registry;
      this.source := source;
      this.whenTrue := whenTrue;
      this.otherwise := otherwise;
    }

    /** `then` sets where the guarded branch goes. */
    method Then(state: State<T>) returns (self: TernaryTransition<T>)
      modifies whenTrue`destination
      ensures self == this && whenTrue.destination == Some(state)
    {
      var _ := whenTrue.To(state);
      self := this;
    }

    /** `otherwise` sets where the negated branch goes. */
    method Otherwise(state: State<T>) returns (self: TernaryTransition<T>)
      modifies otherwise`destination
      ensures self == this && otherwise.destination == Some(state)
    {
      var _ := otherwise.To(state);
      self := this;
    }

    /** Decorating a method registers the guarded branch, then the negated one. */
    method Call(func: Func) returns (r: Result<Func, Error>)
      requires Valid()
      modifies registry
      ensures func.kind == Coroutine ==> r == Failure(Raise("TypeError", "coroutine functions is not supported")) && registry.table == old(registry.table)
      ensures func.kind != Coroutine ==>
                r == Success(func) && registry.Lookup(func) == old(registry.Lookup(func)) + [whenTrue, otherwise]
      ensures forall f :: f != func ==> registry.Lookup(f) == old(registry.Lookup(f))
    {
      r := whenTrue.Call(func);
      if r.Failure? {
        return;
      }
      r := otherwise.Call(func);
    }
  }
}
