/**
 * Method-call states (src/statomata/declarative/state.py): a unary state
 * whose income is a call of one of the machine's methods. Handling it calls
 * the method on the machine object (the container), passes its result on,
 * and then performs the first of that method's transitions that applies,
 * judged on the container as the call left it.
 */
module MethodCalls {
  import opened Wrappers
  import opened Errors

  /**
   * A call of method `func` on `container`. The positional and keyword
   * arguments are folded into the invocation function that runs it.
   */
  datatype MethodCall<T, F> = MethodCall(container: T, func: F)

  /** What running a method did: the container afterwards, and the value returned or the error raised. */
  datatype Invocation<T, O> = Invocation(container: T, result: Result<O, Error>)

  /** The arguments of the context's `set_state(state, final=...)`. */
  datatype Request<T, K, F> = Request(state: MethodCallState<T, K, F>, final: bool)

  /** The three method-call transition kinds; conditions and keys read the container. */
  datatype MethodCallTransition<!T, K, F> =
    | ConstantCall(destination: MethodCallState<T, K, F>)
    | ConditionalCall(condition: T -> bool, whenTrue: MethodCallState<T, K, F>, otherwise: Option<MethodCallState<T, K, F>>)
    | KeyMappingCall(key: T -> K, destinations: map<K, MethodCallState<T, K, F>>, default: Option<MethodCallState<T, K, F>>)

  /**
   * The state `set_state` is called with, if any; the final flag always
   * comes from that state. A constant always has its destination; a
   * conditional has its then-state when the condition holds on the
   * container and its otherwise-state (possibly none) when it does not; a
   * key mapping has the state mapped to the container's key, or its default
   * (possibly none) when the key is absent.
   */
  function Target<T, K, F>(t: MethodCallTransition<T, K, F>, container: T): (r: Option<MethodCallState<T, K, F>>)
    ensures t.ConstantCall? ==> r == Some(t.destination)
    ensures t.ConditionalCall? && t.condition(container) ==> r == Some(t.whenTrue)
    ensures t.ConditionalCall? && !t.condition(container) ==> r == t.otherwise
    ensures t.KeyMappingCall? && t.key(container) in t.destinations ==> r == Some(t.destinations[t.key(container)])
    ensures t.KeyMappingCall? && t.key(container) !in t.destinations ==> r == t.default
  {
    match t
    case ConstantCall(d) => Some(d)
    case ConditionalCall(c, th, ow) => if c(container) then Some(th) else ow
    case KeyMappingCall(k, ds, df) => if k(container) in ds then Some(ds[k(container)]) else df
  }

  /**
   * `perform`: the request made of the context, or None when it returns
   * false without calling it. Every request carries its state's own final
   * flag.
   */
  function Perform<T, K, F>(t: MethodCallTransition<T, K, F>, container: T): (r: Option<Request<T, K, F>>)
    ensures r.Some? <==> Target(t, container).Some?
    ensures r.Some? ==> r.value.state == Target(t, container).value && r.value.final == r.value.state.final
  {
    var d := Target(t, container);
    if d.Some? then Some(Request(d.value, d.value.final)) else None
  }

  /** The request of the first transition in `ts` that applies; None when none does. */
  function FirstRequest<T, K, F>(ts: seq<MethodCallTransition<T, K, F>>, container: T): (r: Option<Request<T, K, F>>)
    ensures r.None? <==> forall i :: 0 <= i < |ts| ==> Perform(ts[i], container).None?
    ensures r.Some? ==> exists i :: 0 <= i < |ts| && r == Perform(ts[i], container)
                                   && forall j :: 0 <= j < i ==> Perform(ts[j], container).None?
  {
    if |ts| == 0 then None
    else if Perform(ts[0], container).Some? then Perform(ts[0], container)
    else
      var rest := FirstRequest(ts[1..], container);
      if rest.Some? then
        ghost var i :| 0 <= i < |ts[1..]| && rest == Perform(ts[1..][i], container)
                       && forall j :: 0 <= j < i ==> Perform(ts[1..][j], container).None?;
        assert rest == Perform(ts[i + 1], container);
        rest
      else None
  }

  class MethodCallState<T, K(==), F(==)> {
    const name: string
    const initial: bool
    const final: bool
    /** The transitions of each method, in registration order. */
    var transitions: map<F, seq<MethodCallTransition<T, K, F>>>

    /** The transitions of a method; a method never registered has none. */
    function Lookup(func: F): seq<MethodCallTransition<T, K, F>>
      reads this
    {
      if func in transitions then transitions[func] else []
    }

    /** A state with no transitions; its name and flags never change afterwards. */
    constructor (name: string, initial: bool, final: bool)
      ensures this.name == name && this.initial == initial && this.final == final
      ensures forall f :: Lookup(f) == []
    {
      this.name := name;
      this.initial := initial;
      this.final := final;
      transitions := map[];
    }

    /**
     * `handle`: runs the method first and passes its result on unchanged.
     * If the method raised, no transition is tried; otherwise the method's
     * transitions are tried in order on the container as the call left it,
     * and the first that applies makes the only request of the context.
     */
    method Handle<O>(call: MethodCall<T, F>, invoke: (F, T) -> Invocation<T, O>)
      returns (r: Invocation<T, O>, request: Option<Request<T, K, F>>)
      ensures r == invoke(call.func, call.container)
      ensures r.result.Failure? ==> request.None?
      ensures r.result.Success? ==> request == FirstRequest(Lookup(call.func), r.container)
    {
      var ts := Lookup(call.func);
      r := invoke(call.func, call.container);
      request := None;
      if r.result.Failure? {
        return;
      }
      var i := 0;
      while i < |ts|
        invariant 0 <= i <= |ts|
        invariant forall j :: 0 <= j < i ==> Perform(ts[j], r.container).None?
      {
        var p := Perform(ts[i], r.container);
        if p.Some? {
          request := p;
          assert request == FirstRequest(ts, r.container) by {
            FirstRequestAt(ts, i, r.container);
          }
          return;
        }
        i := i + 1;
      }
    }

    /** `add_transitions`: appends to one method's list; other methods keep theirs. */
    method AddTransitions(func: F, ts: seq<MethodCallTransition<T, K, F>>)
      modifies this`transitions
      ensures transitions == old(transitions)[func := old(Lookup(func)) + ts]
    {
      transitions := transitions[func := Lookup(func) + ts];
    }
  }

  /** The first transition that applies decides the request. */
  lemma {:induction false} FirstRequestAt<T, K, F>(ts: seq<MethodCallTransition<T, K, F>>, i: nat, container: T)
    requires i < |ts| && Perform(ts[i], container).Some?
    requires forall j :: 0 <= j < i ==> Perform(ts[j], container).None?
    ensures FirstRequest(ts, container) == Perform(ts[i], container)
    decreases i
  {
    if i > 0 {
      FirstRequestAt(ts[1..], i - 1, container);
    }
  }
}
