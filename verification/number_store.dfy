/**
 * The positive number store, a declarative machine from the repository's
 * examples (examples/state_machines/positive_number_store.py): states idle,
 * opened, broken (the fallback for ValueError) and closed, over a list of
 * numbers. The scenario replays its integration test.
 */
module NumberStore {
  import opened Wrappers
  import opened Errors
  import opened Executors
  import opened Transitions
  import opened Builder
  import opened Registries
  import opened Declarative
  import MethodCalls

  type Nums = seq<int>
  /** What the store's methods return: None, or the numbers (from `close`). */
  type Outcome = Option<Nums>
  type Machine = DeclarativeStateMachine<Nums, (), Outcome>

  /** The four states; `open` is the one the example calls `opened`. */
  datatype Store = Store(idle: State<Nums>, open: State<Nums>, broken: State<Nums>, closed: State<Nums>)
  {
    predicate Distinct() {
      idle != open && idle != broken && idle != closed && open != broken && open != closed && broken != closed
    }
  }

  const OpenFunc := Func("open", Plain)
  const RecoverFunc := Func("recover", Plain)
  const CloseFunc := Func("close", Plain)
  const ExtendFunc := Func("extend", Plain)

  const NegativeMessage := "negative value is not allowed"

  /** `open` and `close` do nothing themselves. */
  function Pass(nums: Nums): MethodCalls.Invocation<Nums, Outcome> {
    MethodCalls.Invocation(nums, Success(None))
  }

  /** `recover` drops the negative numbers. */
  function Recover(nums: Nums): (r: MethodCalls.Invocation<Nums, Outcome>)
    ensures r.result == Success(None)
    ensures forall i :: 0 <= i < |r.container| ==> r.container[i] >= 0
  {
    MethodCalls.Invocation(Filter(nums, (n: int) => n >= 0), Success(None))
  }

  /** No number of `more` is negative. */
  predicate NonNegative(more: seq<int>) {
    forall i :: 0 <= i < |more| ==> more[i] >= 0
  }

  /** The numbers before the first negative one: those `extend` appends. */
  function Accepted(more: seq<int>): (r: seq<int>)
    ensures NonNegative(r) && r <= more
    ensures |r| < |more| ==> more[|r|] < 0
    ensures NonNegative(more) <==> r == more
  {
    if |more| == 0 || more[0] < 0 then []
    else
      var tail := Accepted(more[1..]);
      assert forall i :: 1 <= i < |more| ==> more[i] == more[1..][i - 1];
      [more[0]] + tail
  }

  /**
   * `extend`: appends the numbers one by one and raises ValueError at the
   * first negative one, keeping those appended before it.
   */
  function Extend(nums: Nums, more: seq<int>): (r: MethodCalls.Invocation<Nums, Outcome>)
    ensures r.container == nums + Accepted(more)
    ensures r.result.Success? <==> NonNegative(more)
    ensures r.result.Success? ==> r.result.value == None
    ensures r.result.Failure? ==> r.result.error == Raise("ValueError", NegativeMessage)
    decreases |more|
  {
    if |more| == 0 then MethodCalls.Invocation(nums, Success(None))
    else if more[0] < 0 then MethodCalls.Invocation(nums, Failure(Raise("ValueError", NegativeMessage)))
    else
      var r := Extend(nums + [more[0]], more[1..]);
      assert forall i :: 1 <= i < |more| ==> more[i] == more[1..][i - 1];
      r
  }

  function OpenOptions(s: Store): MethodOptions<Nums, (), Outcome> {
    MethodOptions([(s.idle, [Constant(s.open)])], Some(Idempotent(s.open, None)))
  }

  function RecoverOptions(s: Store): MethodOptions<Nums, (), Outcome> {
    MethodOptions([(s.broken, [Constant(s.open)])], Some(Idempotent(s.open, None)))
  }

  function CloseOptions(s: Store): MethodOptions<Nums, (), Outcome> {
    MethodOptions([(s.broken, [Constant(s.closed)]), (s.open, [Constant(s.closed)])],
                  Some(Idempotent(s.closed, Some((nums: Nums) => Some(nums)))))
  }

  /** Decorating with the state itself: a transition from opened back to opened. */
  function ExtendOptions(s: Store): MethodOptions<Nums, (), Outcome> {
    MethodOptions([(s.open, [Constant(s.open)])], None)
  }

  /** The registry `registry()` collects: attributes in alphabetical order. */
  function StoreRegistry(s: Store): MachineRegistry<Nums, (), Outcome> {
    MachineRegistry(
      [("broken", s.broken), ("closed", s.closed), ("idle", s.idle), ("opened", s.open)],
      [(CloseFunc, CloseOptions(s)), (ExtendFunc, ExtendOptions(s)), (OpenFunc, OpenOptions(s)), (RecoverFunc, RecoverOptions(s))])
  }

  /** The transitions of one method out of one state. */
  lemma TableOf(s: Store, k: nat, source: State<Nums>)
    requires s.Distinct() && k < 4
    ensures RegisteredFor(StoreRegistry(s).methods, (StoreRegistry(s).methods[k].0, source))
         == TableFor(StoreRegistry(s).methods[k].1.transitions, source)
  {
    var methods := StoreRegistry(s).methods;
    assert Distinct(Keys(methods));
    RegisteredForMethod(methods, k, source);
  }

  /** The store's method table, for the keys its scenario uses. */
  lemma StoreTables(s: Store)
    requires s.Distinct()
    ensures var methods := StoreRegistry(s).methods;
            && RegisteredFor(methods, (OpenFunc, s.idle)) == [Constant(s.open)]
            && RegisteredFor(methods, (OpenFunc, s.open)) == []
            && RegisteredFor(methods, (RecoverFunc, s.broken)) == [Constant(s.open)]
            && RegisteredFor(methods, (RecoverFunc, s.open)) == []
            && RegisteredFor(methods, (CloseFunc, s.broken)) == [Constant(s.closed)]
            && RegisteredFor(methods, (CloseFunc, s.open)) == [Constant(s.closed)]
            && RegisteredFor(methods, (CloseFunc, s.closed)) == []
            && RegisteredFor(methods, (ExtendFunc, s.open)) == [Constant(s.open)]
  {
    TableOf(s, 0, s.broken);
    TableOf(s, 0, s.open);
    TableOf(s, 0, s.closed);
    TableForEntry(CloseOptions(s).transitions, s.broken);
    TableForEntry(CloseOptions(s).transitions, s.open);
    TableForEntry(CloseOptions(s).transitions, s.closed);
    TableOf(s, 1, s.open);
    TableForEntry(ExtendOptions(s).transitions, s.open);
    TableOf(s, 2, s.idle);
    TableOf(s, 2, s.open);
    TableForEntry(OpenOptions(s).transitions, s.idle);
    TableForEntry(OpenOptions(s).transitions, s.open);
    TableOf(s, 3, s.broken);
    TableOf(s, 3, s.open);
    TableForEntry(RecoverOptions(s).transitions, s.broken);
    TableForEntry(RecoverOptions(s).transitions, s.open);
  }

  /** Only `idle` is initial, and only `broken` has a fallback, for ValueError. */
  lemma StoreStates(s: Store)
    requires s.Distinct() && s.idle.initial && !s.open.initial && !s.broken.initial && !s.closed.initial
    requires s.broken.fallback == Single("ValueError")
    requires !Truthy(s.idle.fallback) && !Truthy(s.open.fallback) && !Truthy(s.closed.fallback)
    ensures StoreRegistry(s).Initial() == Success(s.idle)
    ensures FallbackTable(StoreRegistry(s).Fallbacks()) == map["ValueError" := s.broken]
  {
    var values := Values(StoreRegistry(s).states);
    assert values == [s.broken, s.closed, s.idle, s.open];
    assert OnlyAt(values, IsInitial, 2);
    assert [s.idle, s.open][1..] == [s.open];
    assert [s.closed, s.idle, s.open][1..] == [s.idle, s.open];
    assert values[1..] == [s.closed, s.idle, s.open];
    assert Filter([s.open], HasFallback) == [];
    assert Filter([s.idle, s.open], HasFallback) == [];
    assert Filter([s.closed, s.idle, s.open], HasFallback) == [];
    assert Filter(values, HasFallback) == [s.broken];
    assert FallbackTable([s.broken]) == Registered(map[], ["ValueError"], s.broken);
  }

  /** The class and the machine object are set up as the store declares them. */
  ghost predicate Configured(m: Machine, s: Store)
    reads m, m.executor, m.cls.transitions
  {
    && s.Distinct()
    && m.cls.registry == StoreRegistry(s)
    && m.cls.none == None
    && m.cls.fallbackTable == map["ValueError" := s.broken]
    && m.executor.Conf() == Setup(Some(FallbackOf(m.cls.fallbackTable)), false)
    && m.executor.next == None
    && m.cls.transitions.Lookup((OpenFunc, s.idle)) == [Constant(s.open)]
    && m.cls.transitions.Lookup((OpenFunc, s.open)) == []
    && m.cls.transitions.Lookup((RecoverFunc, s.broken)) == [Constant(s.open)]
    && m.cls.transitions.Lookup((RecoverFunc, s.open)) == []
    && m.cls.transitions.Lookup((CloseFunc, s.broken)) == [Constant(s.closed)]
    && m.cls.transitions.Lookup((CloseFunc, s.open)) == [Constant(s.closed)]
    && m.cls.transitions.Lookup((CloseFunc, s.closed)) == []
    && m.cls.transitions.Lookup((ExtendFunc, s.open)) == [Constant(s.open)]
  }

  /** Declaring the class and creating a store: it starts idle and empty. */
  method NewStore() returns (m: Machine, s: Store)
    ensures fresh(m) && fresh(m.executor) && fresh(m.cls.transitions)
    ensures Configured(m, s)
    ensures m.CurrentState() == User(s.idle) && m.container == []
  {
    var idle := new State(None, true, false, Flag(false), None);
    var open := new State(None, false, false, Flag(false), None);
    var broken := new State(None, false, false, Single("ValueError"), None);
    var closed := new State(None, false, false, Flag(false), None);
    s := Store(idle, open, broken, closed);
    var registry := StoreRegistry(s);
    var defined := Define(registry, None);
    if defined.Failure? {
      assert false;
    }
    var cls := defined.value;
    StoreStates(s);
    var created := Create<Nums, (), Outcome, ()>(cls, None, [], []);
    if created.Failure? {
      assert false;
    }
    m := created.value;
    StoreTables(s);
  }

  /** The store's methods, in the order `registry()` collects them. */
  lemma StoreMethods(s: Store)
    ensures Keys(StoreRegistry(s).methods) == [CloseFunc, ExtendFunc, OpenFunc, RecoverFunc]
    ensures Get(StoreRegistry(s).methods, CloseFunc) == Some(CloseOptions(s))
    ensures Get(StoreRegistry(s).methods, ExtendFunc) == Some(ExtendOptions(s))
    ensures Get(StoreRegistry(s).methods, OpenFunc) == Some(OpenOptions(s))
    ensures Get(StoreRegistry(s).methods, RecoverFunc) == Some(RecoverOptions(s))
  {
    var methods := StoreRegistry(s).methods;
    assert Keys(methods) == [CloseFunc, ExtendFunc, OpenFunc, RecoverFunc];
    assert IndexOf(Keys(methods), CloseFunc) == 0;
    assert IndexOf(Keys(methods), ExtendFunc) == 1;
    assert IndexOf(Keys(methods), OpenFunc) == 2;
    assert IndexOf(Keys(methods), RecoverFunc) == 3;
  }

  /** A ValueError is caught by `broken`. */
  lemma BrokenCatches(s: Store)
    ensures FallbackOf(map["ValueError" := s.broken])(Raise("ValueError", NegativeMessage)) == Some(User(s.broken))
  {
    assert Raise("ValueError", NegativeMessage).classes[0] == "ValueError";
  }

  /** The store between calls: configured, in state `st`, holding `nums`. */
  ghost predicate In(m: Machine, s: Store, st: State<Nums>, nums: Nums)
    reads m, m.executor, m.cls.transitions
  {
    Configured(m, s) && m.CurrentState() == User(st) && m.container == nums
  }

  /**
   * `open`: from idle it moves to opened; in opened it is idempotent; in
   * any other state it is refused.
   */
  method Open(m: Machine, s: Store, ghost st: State<Nums>, ghost nums: Nums) returns (r: CallResult<Nums, Outcome>)
    requires In(m, s, st, nums)
    modifies m`container, m.executor
    ensures st == s.idle || st == s.open ==> In(m, s, s.open, nums) && r == Returned(None)
    ensures st != s.idle && st != s.open ==> In(m, s, st, nums) && r == InvalidState(User(st), {s.idle, s.open})
  {
    StoreMethods(s);
    ghost var before := m.executor.Snap();
    r := m.Call(OpenFunc, Pass);
    assert OpenOptions(s).transitions[0].0 == s.idle;
    assert Sources(OpenOptions(s)) == {s.idle, s.open};
    if st == s.idle || st == s.open {
      CallOutcome(m.executor.Conf(), before, nums, OpenOptions(s), m.TableAt(OpenFunc, User(st)), Pass, None);
    }
  }

  /**
   * `extend`: in opened it appends `more` and stays, or raises ValueError
   * at the first negative number and falls back to broken, keeping the
   * numbers before it; in any other state it is refused.
   */
  method ExtendBy(m: Machine, s: Store, more: seq<int>, ghost st: State<Nums>, ghost nums: Nums)
    returns (r: CallResult<Nums, Outcome>)
    requires In(m, s, st, nums)
    modifies m`container, m.executor
    ensures st == s.open && NonNegative(more) ==> In(m, s, s.open, nums + more) && r == Returned(None)
    ensures st == s.open && !NonNegative(more) ==>
              In(m, s, s.broken, nums + Accepted(more)) && r == Raised(Raise("ValueError", NegativeMessage))
    ensures st != s.open ==> In(m, s, st, nums) && r == InvalidState(User(st), {s.open})
  {
    StoreMethods(s);
    ghost var before := m.executor.Snap();
    var invoke := (c: Nums) => Extend(c, more);
    r := m.Call(ExtendFunc, invoke);
    assert ExtendOptions(s).transitions[0].0 == s.open;
    assert Sources(ExtendOptions(s)) == {s.open};
    if st == s.open {
      CallOutcome(m.executor.Conf(), before, nums, ExtendOptions(s), [Constant(s.open)], invoke, None);
      if !NonNegative(more) {
        BrokenCatches(s);
      }
    }
  }

  /**
   * `recover`: from broken it drops the negative numbers and reopens; in
   * opened it is idempotent; in any other state it is refused.
   */
  method Recovered(m: Machine, s: Store, ghost st: State<Nums>, ghost nums: Nums) returns (r: CallResult<Nums, Outcome>)
    requires In(m, s, st, nums)
    modifies m`container, m.executor
    ensures st == s.broken ==> In(m, s, s.open, Filter(nums, (n: int) => n >= 0)) && r == Returned(None)
    ensures st == s.open ==> In(m, s, s.open, nums) && r == Returned(None)
    ensures st != s.broken && st != s.open ==> In(m, s, st, nums) && r == InvalidState(User(st), {s.broken, s.open})
  {
    StoreMethods(s);
    ghost var before := m.executor.Snap();
    r := m.Call(RecoverFunc, Recover);
    assert RecoverOptions(s).transitions[0].0 == s.broken;
    assert Sources(RecoverOptions(s)) == {s.broken, s.open};
    if st == s.broken || st == s.open {
      CallOutcome(m.executor.Conf(), before, nums, RecoverOptions(s), m.TableAt(RecoverFunc, User(st)), Recover, None);
    }
  }

  /**
   * `close`: from opened or broken it moves to closed; in closed it is
   * idempotent; either way it returns the numbers. Elsewhere it is refused.
   */
  method Close(m: Machine, s: Store, ghost st: State<Nums>, ghost nums: Nums) returns (r: CallResult<Nums, Outcome>)
    requires In(m, s, st, nums)
    modifies m`container, m.executor
    ensures st in {s.broken, s.open, s.closed} ==> In(m, s, s.closed, nums) && r == Returned(Some(nums))
    ensures st !in {s.broken, s.open, s.closed} ==> In(m, s, st, nums) && r == InvalidState(User(st), {s.broken, s.open, s.closed})
  {
    StoreMethods(s);
    ghost var before := m.executor.Snap();
    r := m.Call(CloseFunc, Pass);
    assert CloseOptions(s).transitions[0].0 == s.broken && CloseOptions(s).transitions[1].0 == s.open;
    assert Sources(CloseOptions(s)) == {s.broken, s.open, s.closed};
    if st in {s.broken, s.open, s.closed} {
      CallOutcome(m.executor.Conf(), before, nums, CloseOptions(s), m.TableAt(CloseFunc, User(st)), Pass, None);
    }
  }

  /** The first half of the store's integration test: open twice, extend, open, extend. */
  method Filling(m: Machine, s: Store)
    requires In(m, s, s.idle, [])
    modifies m`container, m.executor
    ensures In(m, s, s.open, [1, 2, 3, 4, 5])
  {
    var r := Open(m, s, s.idle, []);
    r := Open(m, s, s.open, []);
    r := ExtendBy(m, s, [1, 2, 3], s.open, []);
    r := Open(m, s, s.open, [1, 2, 3]);
    r := ExtendBy(m, s, [4, 5], s.open, [1, 2, 3]);
    assert [1, 2, 3] + [4, 5] == [1, 2, 3, 4, 5];
  }

  /** Its middle: a negative number breaks the store, keeping 6, and extending is then refused. */
  method Breaking(m: Machine, s: Store) returns (failed: CallResult<Nums, Outcome>, refused: CallResult<Nums, Outcome>)
    requires In(m, s, s.open, [1, 2, 3, 4, 5])
    modifies m`container, m.executor
    ensures In(m, s, s.broken, [1, 2, 3, 4, 5, 6])
    ensures failed == Raised(Raise("ValueError", NegativeMessage))
    ensures refused == InvalidState(User(s.broken), {s.open})
  {
    assert [6, -1, 7][1] < 0;
    assert Accepted([6, -1, 7]) == [6];
    assert [1, 2, 3, 4, 5] + [6] == [1, 2, 3, 4, 5, 6];
    failed := ExtendBy(m, s, [6, -1, 7], s.open, [1, 2, 3, 4, 5]);
    refused := ExtendBy(m, s, [-5], s.broken, [1, 2, 3, 4, 5, 6]);
  }

  /** Then recovering reopens the store with its numbers, and recovering again changes nothing. */
  method Recovering(m: Machine, s: Store)
    requires In(m, s, s.broken, [1, 2, 3, 4, 5, 6])
    modifies m`container, m.executor
    ensures In(m, s, s.open, [1, 2, 3, 4, 5, 6])
  {
    FilterAll([1, 2, 3, 4, 5, 6], (n: int) => n >= 0);
    var r := Recovered(m, s, s.broken, [1, 2, 3, 4, 5, 6]);
    r := Recovered(m, s, s.open, [1, 2, 3, 4, 5, 6]);
  }

  /**
   * The integration test of the store: opening is idempotent, extending
   * appends, a negative number raises ValueError and moves to `broken`
   * with the numbers before it kept, `extend` is refused in `broken`,
   * `recover` reopens, and `close` returns the numbers, twice.
   */
  method Scenario() returns (m: Machine, s: Store, failed: CallResult<Nums, Outcome>, refused: CallResult<Nums, Outcome>,
                             closed1: CallResult<Nums, Outcome>, closed2: CallResult<Nums, Outcome>)
    ensures In(m, s, s.closed, [1, 2, 3, 4, 5, 6])
    ensures failed == Raised(Raise("ValueError", NegativeMessage))
    ensures refused == InvalidState(User(s.broken), {s.open})
    ensures closed1 == Returned(Some([1, 2, 3, 4, 5, 6])) && closed2 == closed1
  {
    m, s := NewStore();
    Filling(m, s);
    failed, refused := Breaking(m, s);
    Recovering(m, s);
    closed1 := Close(m, s, s.open, [1, 2, 3, 4, 5, 6]);
    closed2 := Close(m, s, s.closed, [1, 2, 3, 4, 5, 6]);
  }
}
