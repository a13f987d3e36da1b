/**
 * The reusable transitions (src/statomata/transition.py): each one, given
 * an income, either asks its context to move to some state and answers true,
 * or leaves the context alone and answers false. A transition executor keeps
 * an ordered list of them per key and runs the first one that answers true.
 */
module Transitions {
  import opened Wrappers
  import opened Executors

  /**
   * The three built-in kinds. A mapping's table may map a key to None, which
   * (like a missing key with no default) makes it answer false.
   */
  datatype Transition<!U, S, M> =
    | Constant(destination: S)
    | Conditional(condition: U -> bool, whenTrue: S, otherwise: Option<S>)
    | Mapping(key: U -> M, destinations: map<M, Option<S>>, default: Option<S>)

  /**
   * The state a transition hands to `set_state` for an income, or None when
   * `perform` returns false without touching the context.
   */
  function Perform<U, S, M>(t: Transition<U, S, M>, income: U): Option<S> {
    match t
    case Constant(d) => Some(d)
    case Conditional(c, th, ow) => if c(income) then Some(th) else ow
    case Mapping(k, ds, df) => if k(income) in ds then ds[k(income)] else df
  }

  /** A transition answers true exactly when it has a state to move to. */
  predicate Fires<U, S, M>(t: Transition<U, S, M>, income: U) {
    Perform(t, income).Some?
  }

  /**
   * `perform` acting on an executor as its context: at most one `set_state`,
   * made exactly when the answer is true.
   */
  method PerformOn<U, S, M, V>(t: Transition<U, S, M>, income: U, ctx: StateMachineExecutor<S, U, V>)
    returns (ok: bool)
    modifies ctx`next
    ensures ok == Fires(t, income)
    ensures ok ==> ctx.next == Some(User(Perform(t, income).value))
    ensures !ok ==> ctx.next == old(ctx.next)
  {
    match t
    case Constant(d) =>
      ctx.SetState(User(d));
      ok := true;
    case Conditional(c, th, ow) =>
      if c(income) {
        ctx.SetState(User(th));
        return true;
      }
      if ow.Some? {
        ctx.SetState(User(ow.value));
        return true;
      }
      ok := false;
    case Mapping(k, ds, df) =>
      var key := k(income);
      var destination := if key in ds then ds[key] else df;
      if destination.Some? {
        ctx.SetState(User(destination.value));
        return true;
      }
      ok := false;
  }

  /**
   * The position of the first transition in `ts` that fires for `income`:
   * every earlier one answers false, and None means none of them fires.
   */
  function FirstMatch<U, S, M>(ts: seq<Transition<U, S, M>>, income: U): (r: Option<nat>)
    ensures r.Some? ==> r.value < |ts| && Fires(ts[r.value], income)
    ensures r.Some? ==> forall j :: 0 <= j < r.value ==> !Fires(ts[j], income)
    ensures r.None? ==> forall j :: 0 <= j < |ts| ==> !Fires(ts[j], income)
  {
    if |ts| == 0 then None
    else if Fires(ts[0], income) then Some(0)
    else
      var rest := FirstMatch(ts[1..], income);
      if rest.Some? then Some(rest.value + 1) else None
  }

  /**
   * Appending transitions to a key never changes a choice already made by
   * the earlier ones; the new ones are tried only when none of the old ones
   * fires.
   */
  lemma {:induction false} FirstMatchAppend<U, S, M>(a: seq<Transition<U, S, M>>, b: seq<Transition<U, S, M>>, income: U)
    ensures FirstMatch(a + b, income) ==
      if FirstMatch(a, income).Some? then FirstMatch(a, income)
      else if FirstMatch(b, income).Some? then Some(FirstMatch(b, income).value + |a|)
      else None
  {
    if |a| == 0 {
      assert a + b == b;
    } else {
      assert (a + b)[1..] == a[1..] + b;
      FirstMatchAppend(a[1..], b, income);
    }
  }

  /** A transition list ending in a constant transition always picks some transition. */
  lemma {:induction false} ConstantCatchesAll<U, S, M>(ts: seq<Transition<U, S, M>>, d: S, income: U)
    ensures FirstMatch(ts + [Constant(d)], income).Some?
  {
    var last: seq<Transition<U, S, M>> := [Constant(d)];
    FirstMatchAppend(ts, last, income);
    assert Fires(last[0], income);
  }

  /** The transition executor: a table from keys to ordered transition lists. */
  class TransitionExecutor<K(==), U, S, M(==)> {
    var transitions: map<K, seq<Transition<U, S, M>>>

    /** The list for a key; a key never registered has the empty list. */
    function Lookup(key: K): seq<Transition<U, S, M>>
      reads this
    {
      if key in transitions then transitions[key] else []
    }

    /** Registers every list of `initial`, one key at a time. */
    constructor (initial: map<K, seq<Transition<U, S, M>>>)
      ensures forall k :: Lookup(k) == (if k in initial then initial[k] else [])
      ensures transitions.Keys == initial.Keys
    {
      transitions := map[];
      new;
      var todo := initial.Keys;
      while todo != {}
        invariant todo <= initial.Keys
        invariant forall k :: Lookup(k) == (if k in initial && k !in todo then initial[k] else [])
        invariant transitions.Keys == initial.Keys - todo
        decreases todo
      {
        var k :| k in todo;
        AddTransitions(k, initial[k]);
        todo := todo - {k};
      }
    }

    /** `add_transitions`: extends one key's list at its end; other keys keep theirs. */
    method AddTransitions(key: K, values: seq<Transition<U, S, M>>)
      modifies this`transitions
      ensures Lookup(key) == old(Lookup(key)) + values
      ensures transitions == old(transitions)[key := old(Lookup(key)) + values]
    {
      transitions := transitions[key := Lookup(key) + values];
    }

    /**
     * `execute`: tries the key's transitions in order against the context and
     * stops at the first that answers true. Returns its position; the context
     * then holds its destination as pending, and is untouched when none fires.
     */
    method Execute<V>(key: K, income: U, ctx: StateMachineExecutor<S, U, V>) returns (chosen: Option<nat>)
      modifies ctx`next
      ensures chosen == FirstMatch(Lookup(key), income)
      ensures chosen.Some? ==> ctx.next == Some(User(Perform(Lookup(key)[chosen.value], income).value))
      ensures chosen.None? ==> ctx.next == old(ctx.next)
    {
      var ts := Lookup(key);
      var i := 0;
      while i < |ts|
        invariant 0 <= i <= |ts|
        invariant forall j :: 0 <= j < i ==> !Fires(ts[j], income)
        invariant ctx.next == old(ctx.next)
      {
        var ok := PerformOn(ts[i], income, ctx);
        if ok {
          FirstMatchPrefix(ts, i, income);
          return Some(i);
        }
        i := i + 1;
      }
      FirstMatchPrefix(ts, |ts|, income);
      return None;
    }
  }

  /** When the first `i` transitions all answer false, the choice is decided by the rest. */
  lemma {:induction false} FirstMatchPrefix<U, S, M>(ts: seq<Transition<U, S, M>>, i: nat, income: U)
    requires i <= |ts|
    requires forall j :: 0 <= j < i ==> !Fires(ts[j], income)
    ensures i < |ts| && Fires(ts[i], income) ==> FirstMatch(ts, income) == Some(i)
    ensures i == |ts| ==> FirstMatch(ts, income) == None
  {
  }
}
