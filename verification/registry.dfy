/**
 * The registry of a declarative machine class
 * (src/statomata/declarative/registry.py): its states by name and the
 * options of its decorated methods. Python dictionaries are lists of
 * entries in insertion order, with distinct keys.
 */
module Registries {
  import opened Wrappers
  import opened Errors
  import opened Builder
  import Transitions

  /** The keys of a dictionary, in insertion order. */
  function Keys<K, V>(d: seq<(K, V)>): (r: seq<K>)
    ensures |r| == |d| && forall i :: 0 <= i < |d| ==> r[i] == d[i].0
  {
    seq(|d|, i requires 0 <= i < |d| => d[i].0)
  }

  /** The values of a dictionary, in insertion order. */
  function Values<K, V>(d: seq<(K, V)>): (r: seq<V>)
    ensures |r| == |d| && forall i :: 0 <= i < |d| ==> r[i] == d[i].1
  {
    seq(|d|, i requires 0 <= i < |d| => d[i].1)
  }

  predicate Distinct<K(==)>(ks: seq<K>) {
    forall i, j :: 0 <= i < j < |ks| ==> ks[i] != ks[j]
  }

  /** The position of the first occurrence of `k`. */
  function IndexOf<K(==)>(ks: seq<K>, k: K): (i: nat)
    requires k in ks
    ensures i < |ks| && ks[i] == k && forall j :: 0 <= j < i ==> ks[j] != k
  {
    if ks[0] == k then 0 else 1 + IndexOf(ks[1..], k)
  }

  /** `d.get(k)`. */
  function Get<K(==), V>(d: seq<(K, V)>, k: K): (r: Option<V>)
    ensures r.None? <==> k !in Keys(d)
    ensures r.Some? ==> exists i :: 0 <= i < |d| && d[i] == (k, r.value)
  {
    if k in Keys(d) then Some(d[IndexOf(Keys(d), k)].1) else None
  }

  /**
   * `d[k] = v`: an existing key keeps its place and gets the new value, a
   * new key goes last; every other key keeps its value.
   */
  function Put<K(==,!new), V>(d: seq<(K, V)>, k: K, v: V): (r: seq<(K, V)>)
    ensures Keys(r) == if k in Keys(d) then Keys(d) else Keys(d) + [k]
    ensures Get(r, k) == Some(v)
    ensures forall k' :: k' != k ==> Get(r, k') == Get(d, k')
    ensures forall i :: 0 <= i < |r| ==> r[i] == (k, v) || r[i] in d
    ensures Distinct(Keys(d)) ==> Distinct(Keys(r))
  {
    if k in Keys(d) then
      var r := d[IndexOf(Keys(d), k) := (k, v)];
      assert Keys(r) == Keys(d);
      r
    else
      var r := d + [(k, v)];
      assert Keys(r) == Keys(d) + [k];
      forall k' | k' != k && k' in Keys(d)
        ensures IndexOf(Keys(r), k') == IndexOf(Keys(d), k')
      {
        var i, i' := IndexOf(Keys(r), k'), IndexOf(Keys(d), k');
        assert Keys(r)[i'] == k';
      }
      r
  }

  /** `IdempotentOptions`: calls made in `state` skip the method; `returning` (the `returns` option) gives the outcome. */
  datatype Idempotent<!T, O> = Idempotent(state: State<T>, returning: Option<T -> O>)

  /**
   * `MethodOptions` of one decorated method: its transitions out of each
   * source state, and its idempotent state if it has one.
   */
  datatype MethodOptions<!T, M, O> = MethodOptions(
    transitions: seq<(State<T>, seq<Transitions.Transition<T, State<T>, M>>)>,
    idempotent: Option<Idempotent<T, O>>)

  /** `StateMachineRegistry`: the states by name and the decorated methods. */
  datatype MachineRegistry<!T, M, O> = MachineRegistry(
    states: seq<(string, State<T>)>,
    methods: seq<(Func, MethodOptions<T, M, O>)>)
  {
    /** The single initial state, or an InvalidOptionsError. */
    function Initial(): (r: Result<State<T>, Error>)
      ensures r == InitialOf(Values(states), "InvalidOptionsError")
      ensures r.Success? ==> r.value.initial && exists i :: 0 <= i < |states| && states[i].1 == r.value
    {
      var r := InitialOf(Values(states), "InvalidOptionsError");
      assert r.Success? ==> exists i :: OnlyAt(Values(states), IsInitial, i) && r.value == Values(states)[i];
      r
    }

    /** The final states in order, or an InvalidOptionsError when there are none. */
    function Finals(): (r: Result<seq<State<T>>, Error>)
      ensures r == FinalsOf(Values(states), "InvalidOptionsError")
      ensures r.Failure? <==> forall i :: 0 <= i < |states| ==> !states[i].1.final
    {
      FinalsOf(Values(states), "InvalidOptionsError")
    }

    /** The states with a truthy fallback option, in order. */
    function Fallbacks(): (r: seq<State<T>>)
      ensures r == FallbacksOf(Values(states))
      ensures forall i :: 0 <= i < |states| && Truthy(states[i].1.fallback) ==> states[i].1 in r
    {
      FallbacksOf(Values(states))
    }
  }
}
