/**
 * The configurator of declarative machines
 * (src/statomata/declarative/config.py): it collects a machine class's
 * states and decorated methods into a registry, turns a state's fallback
 * option into the exception classes it catches, and creates the state
 * executor of each machine instance.
 */
module Config {
  import opened Wrappers
  import opened Errors
  import opened Builder
  import opened Registries
  import opened Executors

  /** A class attribute, as `inspect.getmembers` lists it. */
  datatype Member<!T, M, O> =
    | StateMember(state: State<T>)
    | MethodMember(func: Func, options: Option<MethodOptions<T, M, O>>)
    | OtherMember

  /** A name is set when it is present and not empty. */
  predicate Named(name: Option<string>) {
    name.Some? && name.value != ""
  }

  /** `obj.name or attr`. */
  function NameOr(name: Option<string>, attr: string): (r: string)
    ensures Named(name) ==> r == name.value
    ensures !Named(name) ==> r == attr
  {
    if Named(name) then name.value else attr
  }

  /** The state objects among the members. */
  function StatesOf<T, M, O>(members: seq<(string, Member<T, M, O>)>): set<State<T>> {
    set i | 0 <= i < |members| && members[i].1.StateMember? :: members[i].1.state
  }

  /** The member is the method `f` and carries options. */
  predicate Carries<T, M, O>(m: Member<T, M, O>, f: Func) {
    m.MethodMember? && m.func == f && m.options.Some?
  }

  /** The methods that carry options, keyed by function in order; a later entry for the same function wins. */
  function MethodsOf<T, M, O>(members: seq<(string, Member<T, M, O>)>): (r: seq<(Func, MethodOptions<T, M, O>)>)
    ensures Distinct(Keys(r))
    ensures forall f :: f in Keys(r) <==> exists i :: 0 <= i < |members| && members[i].1.MethodMember?
                                                      && members[i].1.func == f && members[i].1.options.Some?
  {
    if |members| == 0 then []
    else
      var prev := MethodsOf(members[..|members| - 1]);
      var m := members[|members| - 1].1;
      assert forall i :: 0 <= i < |members| - 1 ==> members[..|members| - 1][i] == members[i];
      if m.MethodMember? && m.options.Some? then Put(prev, m.func, m.options.value) else prev
  }

  /** The last member that is the method `f` with options. */
  predicate LastCarrier<T, M, O>(members: seq<(string, Member<T, M, O>)>, f: Func, i: int) {
    0 <= i < |members| && Carries(members[i].1, f) && forall j :: i < j < |members| ==> !Carries(members[j].1, f)
  }

  /** `methods[obj] = options`: each function is stored with the options of its last member. */
  lemma {:induction false} MethodsOfStores<T, M, O>(members: seq<(string, Member<T, M, O>)>, f: Func)
    requires f in Keys(MethodsOf(members))
    ensures exists i :: LastCarrier(members, f, i) && Get(MethodsOf(members), f) == members[i].1.options
  {
    assert |members| > 0;
    var n := |members| - 1;
    var init := members[..n];
    var m := members[n].1;
    var prev := MethodsOf(init);
    var r := MethodsOf(members);
    if Carries(m, f) {
      assert r == Put(prev, f, m.options.value);
      assert LastCarrier(members, f, n);
    } else {
      assert Get(r, f) == Get(prev, f) by {
        if m.MethodMember? && m.options.Some? {
          assert r == Put(prev, m.func, m.options.value);
        } else {
          assert r == prev;
        }
      }
      assert f in Keys(prev);
      MethodsOfStores(init, f);
      var i :| LastCarrier(init, f, i) && Get(prev, f) == init[i].1.options;
      assert init[i] == members[i];
      assert forall j :: i < j < n ==> init[j] == members[j];
      assert LastCarrier(members, f, i);
    }
  }


  /**
   * `registry`: every state gets the name it already had or else its
   * attribute name, and is stored under it; decorated methods are stored
   * with their options. Attribute names are never empty.
   */
  method Collect<T, M, O>(members: seq<(string, Member<T, M, O>)>) returns (reg: MachineRegistry<T, M, O>)
    requires forall i :: 0 <= i < |members| ==> members[i].0 != ""
    modifies StatesOf(members)
    ensures reg.methods == MethodsOf(members)
    ensures Distinct(Keys(reg.states))
    ensures forall i :: 0 <= i < |reg.states| ==> reg.states[i].1.name == Some(reg.states[i].0)
    ensures forall i :: 0 <= i < |reg.states| ==> reg.states[i].1 in StatesOf(members)
    ensures forall i :: 0 <= i < |members| && members[i].1.StateMember? ==>
              Named(members[i].1.state.name) && members[i].1.state.name.value in Keys(reg.states)
    ensures forall i :: 0 <= i < |members| && members[i].1.StateMember? && Named(old(members[i].1.state.name)) ==>
              members[i].1.state.name == old(members[i].1.state.name)
    ensures forall i :: 0 <= i < |members| && members[i].1.StateMember? && !Named(old(members[i].1.state.name)) ==>
              exists k :: 0 <= k < |members| && members[k].1 == members[i].1 && members[i].1.state.name == Some(members[k].0)
  {
    ghost var names0 := NamesOf(members);
    var states: seq<(string, State<T>)> := [];
    var methods: seq<(Func, MethodOptions<T, M, O>)> := [];
    var i := 0;
    while i < |members|
      invariant 0 <= i <= |members|
      invariant methods == MethodsOf(members[..i])
      invariant Progress(members, names0, i, states)
      invariant names0 == old(NamesOf(members))
    {
      assert members[..i + 1][..i] == members[..i];
      states := Visit(members, names0, i, states);
      if members[i].1.MethodMember? && members[i].1.options.Some? {
        methods := Put(methods, members[i].1.func, members[i].1.options.value);
      }
      i := i + 1;
    }
    assert members[..i] == members;
    reg := MachineRegistry(states, methods);
    forall j | 0 <= j < |members| && members[j].1.StateMember? && !Named(old(members[j].1.state.name))
      ensures exists k :: 0 <= k < |members| && members[k].1 == members[j].1 && members[j].1.state.name == Some(members[k].0)
    {
      assert names0[j] == old(members[j].1.state.name);
      assert 0 <= j < i;
    }
  }

  /** The names the state members have, position by position. */
  function NamesOf<T, M, O>(members: seq<(string, Member<T, M, O>)>): (r: seq<Option<string>>)
    reads StatesOf(members)
    ensures |r| == |members|
  {
    seq(|members|, j reads StatesOf(members) requires 0 <= j < |members| =>
      if members[j].1.StateMember? then members[j].1.state.name else None)
  }

  /**
   * The loop invariant of `Collect` after the first `i` members, given the
   * names the states had on entry.
   */
  ghost predicate Progress<T, M, O>(members: seq<(string, Member<T, M, O>)>, names0: seq<Option<string>>, i: int, states: seq<(string, State<T>)>)
    reads StatesOf(members)
  {
    && |names0| == |members| && 0 <= i <= |members|
    && (forall j :: 0 <= j < |members| ==> members[j].0 != "")
    && Distinct(Keys(states))
    && (forall j :: 0 <= j < |states| ==> states[j].1 in StatesOf(members))
    && NamedByKey(states)
    && (forall j :: 0 <= j < i && members[j].1.StateMember? ==>
          Named(members[j].1.state.name) && members[j].1.state.name.value in Keys(states))
    && (forall j :: 0 <= j < |members| && members[j].1.StateMember? ==>
          members[j].1.state.name == names0[j]
          || (Named(members[j].1.state.name) && !Named(names0[j])
              && exists k :: 0 <= k < i && members[k].1 == members[j].1 && members[j].1.state.name == Some(members[k].0)))
  }

  /** One step of `Collect`: a state member is named and stored; other members leave the states alone. */
  method Visit<T, M, O>(members: seq<(string, Member<T, M, O>)>, ghost names0: seq<Option<string>>, i: int, states: seq<(string, State<T>)>)
    returns (r: seq<(string, State<T>)>)
    requires Progress(members, names0, i, states) && i < |members|
    modifies StatesOf(members)
    ensures Progress(members, names0, i + 1, r)
  {
    r := states;
    if members[i].1.StateMember? {
      var s := members[i].1.state;
      assert s in StatesOf(members);
      r := Store(states, s, members[i].0);
      var name := s.name.value;
      assert Keys(r) == if name in Keys(states) then Keys(states) else Keys(states) + [name];
      forall j | 0 <= j < |r|
        ensures r[j].1 in StatesOf(members)
      {
        if r[j] != (name, s) {
          var k :| 0 <= k < |states| && states[k] == r[j];
        }
      }
      forall j | 0 <= j < i + 1 && members[j].1.StateMember?
        ensures Named(members[j].1.state.name) && members[j].1.state.name.value in Keys(r)
      {
        if members[j].1.state != s {
          assert members[j].1.state.name == old(members[j].1.state.name);
        }
      }
      forall j | 0 <= j < |members| && members[j].1.StateMember?
        ensures members[j].1.state.name == names0[j]
                || (Named(members[j].1.state.name) && !Named(names0[j])
                    && exists k :: 0 <= k < i + 1 && members[k].1 == members[j].1 && members[j].1.state.name == Some(members[k].0))
      {
        if members[j].1.state == s && members[j].1.state.name != names0[j] {
          if old(s.name) == names0[j] {
            assert members[i].1 == members[j].1;
          } else {
            var k :| 0 <= k < i && members[k].1 == members[j].1 && old(s.name) == Some(members[k].0);
            assert Named(old(s.name));
          }
        } else if members[j].1.state != s {
          assert members[j].1.state.name == old(members[j].1.state.name);
        }
      }
    }
  }

  /** Every entry's state is named after its key, and no key is empty. */
  ghost predicate NamedByKey<T>(states: seq<(string, State<T>)>)
    reads set j | 0 <= j < |states| :: states[j].1
  {
    forall j :: 0 <= j < |states| ==> states[j].1.name == Some(states[j].0) && states[j].0 != ""
  }

  /** One state member: name the state, then store it under its name. */
  method Store<T>(states: seq<(string, State<T>)>, s: State<T>, attr: string) returns (r: seq<(string, State<T>)>)
    requires attr != "" && NamedByKey(states)
    modifies s`name
    ensures s.name == Some(NameOr(old(s.name), attr))
    ensures r == Put(states, s.name.value, s)
    ensures NamedByKey(r)
  {
    var name := NameOr(s.name, attr);
    forall j | 0 <= j < |states| && states[j].1 == s
      ensures states[j].0 == name
    {
    }
    s.name := Some(name);
    r := Put(states, name, s);
  }

  /**
   * `build_fallback`: the exception classes a state catches. True catches
   * every `Exception`, False nothing, a class itself, a sequence its classes
   * in order. The handler registered for them always answers with the state.
   */
  function FallbackClasses<T>(state: State<T>): (r: seq<ErrorType>)
    ensures |r| > 0 <==> Truthy(state.fallback)
    ensures state.fallback.Flag? ==> r == (if state.fallback.on then [ExceptionType] else [])
    ensures state.fallback.Single? ==> r == [state.fallback.cls]
    ensures state.fallback.Many? ==> r == state.fallback.classes
  {
    match state.fallback
    case Flag(on) => if on then [ExceptionType] else []
    case Single(cls) => [cls]
    case Many(classes) => classes
  }

  /**
   * `create_state_executor`: an executor in the initial state whose
   * subscriber registry exists exactly when subscribers were given.
   */
  method CreateStateExecutor<T, O, Sub>(initial: State<T>, fallback: Option<Error -> Option<Node<State<T>>>>, subscribers: seq<Sub>)
    returns (e: StateMachineExecutor<State<T>, T, O>)
    ensures fresh(e)
    ensures e.Conf() == Setup(fallback, |subscribers| > 0)
    ensures e.Snap() == Fresh(User(initial))
  {
    e := new StateMachineExecutor(User(initial), fallback, |subscribers| > 0);
  }
}
