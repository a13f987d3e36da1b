# statomata, modelled in Dafny

statomata is a small Python library of state machines. Its core is an
executor. The executor holds the current state, a pending state set by
`set_state`, the `is_started` and `is_finished` flags, an optional fallback
that maps an exception to a state, and an optional subscriber that hears
every step. Three kinds of shells drive the executor:

- the unary shell: one income, one outcome;
- the iterable shells: a stream of incomes, each giving zero or more outcomes;
- the declarative layer.

In the declarative layer a class declares its states as attributes and
decorates its methods with transitions. Calling a method checks that the
current state is one of the method's sources. It then runs the method and
moves along the first transition that applies; when the method raises, it
moves to the fallback state for that error.

This project models that core in Dafny 4.11. The modules are:

| module | file | models |
|---|---|---|
| `Wrappers` | wrappers.dfy | `Option` and `Result` |
| `Errors` | errors.dfy | exceptions, reduced to their class names (most specific first) and their message |
| `Subscribers` | subscribers.dfy | the subscriber registries |
| `Finals` | finals.dfy | `FinalState` |
| `Executors` | executor.dfy | `StateMachineExecutor` |
| `Transitions` | transition.dfy | the three transition kinds and `TransitionExecutor` |
| `Unary` | unary.dfy | `UnaryStateMachine` |
| `TrafficLight` | traffic_light.dfy | the traffic-light machine of the test stubs |
| `Iterable` | iterable.dfy | the three iterable shells |
| `MethodCalls` | method_call.dfy | `declarative/state.py` |
| `Builder` | builder.dfy | `declarative/builder.py` |
| `Registries` | registry.dfy | `declarative/registry.py` and the method options it holds |
| `Config` | config.dfy | `declarative/config.py` |
| `Declarative` | declarative.dfy | `declarative/state_machine.py` |
| `NumberStore` | number_store.dfy | the positive-number-store example class and its integration test |

**How the model is specified.** Everything that updates fields in place is a
Dafny class:

- the executor;
- the transition and method-call executors;
- the subscriber registry;
- the builders (`State`, `Transition`, `TernaryTransition`, `TransitionRegistry`);
- the declarative machine and its class.

Each executor method is proved against a pure function on a `Snapshot` of the
executor's fields (`ensures Snap() == Started(Conf(), old(Snap()), income)`).
The promises of the source are lemmas and `ensures` clauses about those
functions.

**What stands in for what.**

- The subscriber is a log of notification events on the executor. An executor
  without a subscriber logs nothing.
- A state's `handle` is a function parameter. It returns either an outcome
  and the state it asked for, or an error and the state it asked for.
- Locks become "one call at a time": the methods are sequential.
- Reflection (`inspect.getmembers`, `setattr`, `singledispatchmethod`) becomes
  explicit tables.
- A method of a declarative class is a `Func` (name and kind). Its body is a
  function from the object's attributes (`T`) to an `Invocation`: the new
  attributes plus a returned value or a raised error.

**Where the repository's files disagree.** The files come from different
revisions, and each is modelled as written:

- `executor.py` calls `notify_start`, `notify_state_start` and the other
  names that `subscriber.py` defines, while `subscriber/registry.py` defines
  `notify_initial`, `notify_state_entered` and so on. Both registries are one
  class, generic in the notification it forwards; the notifications are
  named after the calls `executor.py` makes.
- `visit_state` is called by `iterable.py` and `state_machine.py` but not
  defined in `executor.py`. It is modelled as: `start_state`, then the body,
  then `finish_state` on a normal exit. On an exception it is
  `handle_state_error` and the same exception raised again.
- `is_aborted` is a predicate on the executor given by the caller.
- `final.py` imports `FinalStateAlreadyReachedError` from `abc.py`, and
  `registry.py` imports `InvalidOptionsError` from `builder.py`, but neither
  file defines it. Their base classes are assumed: the first is a
  `StateMachineError` (classes `FinalStateAlreadyReachedError`,
  `StateMachineError`, `Exception`), and the second derives directly from
  `Exception`, as `Errors.Raise` builds it. These choices decide which
  fallback classes catch them.
- `registry.py` and `config.py` import `MethodOptions` and
  `get_method_options`, but `builder.py` defines neither, nor `idempotent`. Method options are given data (`Registries.MethodOptions`):
  - transitions per source state;
  - an optional idempotent state;
  - an optional `returns`.

## Model

| member | source | states |
|---|---|---|
| `Finals.Handle` | src/statomata/final.py:24-27 | a final state never handles an income: it raises `FinalStateAlreadyReachedError` carrying its reason and details, in order |
| `Executors.WithPending` | src/statomata/executor.py:29-31 | `set_state` only records the pending state; current state, flags and notifications are unchanged |
| `Executors.SetStateOverwrites` | src/statomata/executor.py:30-31 | a later `set_state` overrides an earlier one |
| `Executors.WithFinalPending` | src/statomata/executor.py:33-37 | `set_finished(reason, *details)` makes a final state with that reason and those details pending, as a `set_state` of it |
| `Executors.Started` | src/statomata/executor.py:51-60 | `start_state` sets `is_started`, notifies `start` only if not yet started, always notifies `state_start` with the income, and changes nothing else |
| `Executors.Reported` | src/statomata/executor.py:62-64 | `handle_outcome` notifies one `state_outcome` and changes nothing else |
| `Executors.Reset` | src/statomata/executor.py:91-100 | `reset_state` with nothing pending returns false and changes nothing; otherwise the pending state becomes current, even when equal to it, the pending cell empties, one `transition` is notified and it returns true |
| `Executors.Finished` | src/statomata/executor.py:66-76 | `finish_state` notifies `state_finish` for the state left, applies the pending state, and sets `is_finished` and notifies `finish` exactly when the new state is final |
| `Executors.Failed` | src/statomata/executor.py:78-89 | `handle_state_error` drops any pending state and notifies `state_error`; it returns true and moves to the fallback's state exactly when a fallback gives a state, else keeps the state |
| `Executors.StateMachineExecutor.constructor` | src/statomata/executor.py:15-27 | a new executor is in the given state with nothing pending, no flag set and nothing notified |
| `Executors.StateMachineExecutor.SetState` | src/statomata/executor.py:29-31 | the new fields are `WithPending` of the old |
| `Executors.StateMachineExecutor.SetFinished` | src/statomata/executor.py:33-37 | the new fields are `WithFinalPending` of the old |
| `Executors.StateMachineExecutor.StartState` | src/statomata/executor.py:51-60 | the new fields are `Started` of the old |
| `Executors.StateMachineExecutor.HandleOutcome` | src/statomata/executor.py:62-64 | the new fields are `Reported` of the old |
| `Executors.StateMachineExecutor.ResetState` | src/statomata/executor.py:91-100 | the new fields and the answer are `Reset` of the old |
| `Executors.StateMachineExecutor.FinishState` | src/statomata/executor.py:66-76 | the new fields are `Finished` of the old |
| `Executors.StateMachineExecutor.HandleStateError` | src/statomata/executor.py:78-89 | the new fields and the answer are `Failed` of the old |
| `Executors.FlagsMonotone` | src/statomata/executor.py:51-100 | over any sequence of executor operations, `is_started` and `is_finished` never go back to false and notifications are only appended |
| `Executors.StartEmittedOnce` | src/statomata/executor.py:51-55 | over any sequence of operations from a fresh executor, `start` is notified once if the executor started and there is a subscriber, else never |
| `Subscribers.SubscriberRegistry.constructor` | src/statomata/subscriber/registry.py:17-18 | the registry holds the given subscribers, duplicates merged |
| `Subscribers.SubscriberRegistry.Register` | src/statomata/subscriber/registry.py:20-21 | `register` is set union with the given subscribers |
| `Subscribers.SubscriberRegistry.Unregister` | src/statomata/subscriber/registry.py:23-24 | `unregister` is set difference: exactly the given ones leave, absent ones are ignored |
| `Subscribers.SubscriberRegistry.Notify` | src/statomata/subscriber/registry.py:26-59 | a notification reaches every registered subscriber exactly once, with the same event, and no one else |
| `Transitions.PerformOn` | src/statomata/transition.py:42-120 | `perform` answers true exactly when the transition has a destination (constant always; conditional: then-state when the condition holds, else the otherwise-state if any; mapping: the mapped state for a present key, else the default) and then has set that state pending; on false the pending state is untouched |
| `Transitions.FirstMatch` | src/statomata/transition.py:142-149 | the chosen transition fires and none before it does; none chosen means none fires |
| `Transitions.FirstMatchAppend` | src/statomata/transition.py:145-147 | the first match in `a + b` is the first in `a`, or else the first in `b` shifted by `|a|` |
| `Transitions.ConstantCatchesAll` | src/statomata/transition.py:43-45 | a constant transition at the end of a list makes some transition fire |
| `Transitions.TransitionExecutor.constructor` | src/statomata/transition.py:133-140 | building from a mapping equals adding each entry: each key has its list, other keys have none |
| `Transitions.TransitionExecutor.AddTransitions` | src/statomata/transition.py:151-152 | the key's list is the old one followed by the new values; other keys are unchanged |
| `Transitions.TransitionExecutor.Execute` | src/statomata/transition.py:142-149 | `execute` performs the key's transitions in order and returns (the position of) the first that succeeds, which is `FirstMatch`; the pending state is that transition's destination, or untouched when none succeeds or the key is unknown |
| `Unary.Dispatch` | src/statomata/unary.py:101-103 | the current state handles the income; a final state raises `FinalStateAlreadyReachedError` and asks for nothing |
| `Unary.RunOnce` | src/statomata/unary.py:99-113 | after a run the executor has started and nothing is pending; the run returns exactly when the handler returns |
| `Unary.RunReturns` | src/statomata/unary.py:101-113 | a returning handler's outcome is returned; the state becomes the requested one; after `state_start` the subscriber hears `state_outcome` and then `state_finish` for the handling state |
| `Unary.RunRaises` | src/statomata/unary.py:105-107 | a raising handler's error is raised again whether or not the fallback recovers; the state becomes the fallback's, if any; neither an outcome nor `state_finish` is notified, and `state_error` is |
| `Unary.RequestHandlesNext` | src/statomata/unary.py:94-103 | a state requested by one run handles the next income |
| `Unary.UnaryStateMachine.constructor` | src/statomata/unary.py:86-92 | the shell wraps the given executor |
| `Unary.UnaryStateMachine.Run` | src/statomata/unary.py:98-113 | the executor's new fields and the result are `RunOnce` of the old fields |
| `TrafficLight.Handle` | tests/stub/traffic_light_machine.py:34-103 | every light answers; Cycle asks for the following light, Go asks for nothing |
| `TrafficLight.Scenario` | tests/integration/test_state_machine.py:57-84 | a fresh machine fed Go and Cycle four times answers the eight expected strings in order |
| `Iterable.Produce` | src/statomata/iterable.py:59-60 | the current state handles the income; a final state yields nothing, asks for nothing and raises |
| `Iterable.OptBatch` | src/statomata/iterable.py:112-115 | a None outcome is not passed on; any other outcome is passed on exactly once |
| `Iterable.SeqBatch` | src/statomata/iterable.py:166-170 | the returned sequence is passed on whole and in order |
| `Iterable.Reports` | src/statomata/iterable.py:60-62 | one `state_outcome` per outcome, in order, each with its own income |
| `Iterable.ReportAll` | src/statomata/iterable.py:60-62 | reporting outcomes only appends their notifications |
| `Iterable.Visit` | src/statomata/iterable.py:59-62 | one visit starts the state, notifies every outcome, leaves nothing pending and re-raises the handler's error; afterwards the machine is in the fallback's state (or stays) after an error, else in the requested state, else in the one already pending, else where it was |
| `Iterable.Drive` | src/statomata/iterable.py:56-65 | the run consumes incomes in order and stops early only after a visit that raised or after which the machine is aborted |
| `Iterable.DriveStops` | src/statomata/iterable.py:64-65 | once a run has stopped, further incomes are not consumed |
| `Iterable.DriveContinues` | src/statomata/iterable.py:58-62 | a run through `a` without stopping, then over `b`, is the run over `a + b`; the outcomes are concatenated in income order |
| `Iterable.FirstOutcomesEmitted` | src/statomata/iterable.py:59-65 | every outcome of the first income is passed on, even when that income aborts the machine or raises |
| `Iterable.Next` | src/statomata/iterable.py:53-60 | each income is handled by the state current when its visit starts |
| `Iterable.RequestHandlesNext` | src/statomata/iterable.py:53-60 | a state requested while handling one income, without an error, handles the next income |
| `Iterable.VisitState` | src/statomata/iterable.py:59-62 | the loop over one income's outcomes leaves the executor and the outcomes as `Visitor` says |
| `Iterable.Pump` | src/statomata/iterable.py:58-65 | the loop over incomes leaves the executor, outcomes, error and count as `Drive` says |
| `Iterable.IterableStateMachine.constructor` | src/statomata/iterable.py:43-49 | the shell wraps the given executor |
| `Iterable.IterableStateMachine.Run` | src/statomata/iterable.py:56-65 | the run is `Drive` with the generator handler |
| `Iterable.IterableOptStateMachine.constructor` | src/statomata/iterable.py:95-101 | the shell wraps the given executor |
| `Iterable.IterableOptStateMachine.Run` | src/statomata/iterable.py:108-118 | the run is `Drive` with the optional-outcome handler |
| `Iterable.IterableSeqStateMachine.constructor` | src/statomata/iterable.py:149-155 | the shell wraps the given executor |
| `Iterable.IterableSeqStateMachine.Run` | src/statomata/iterable.py:162-173 | the run is `Drive` with the sequence handler |
| `MethodCalls.Perform` | src/statomata/declarative/state.py:43-97 | a method-call transition requests a state exactly when it has a destination for the object, and requests it with `final` equal to that state's flag |
| `MethodCalls.FirstRequest` | src/statomata/declarative/state.py:132-134 | the request is the first transition's that applies; transitions before it do not apply |
| `MethodCalls.MethodCallState.constructor` | src/statomata/declarative/state.py:110-114 | name and flags as given; no transitions for any function |
| `MethodCalls.MethodCallState.Handle` | src/statomata/declarative/state.py:122-136 | the function runs first and its result is returned unchanged; an error requests nothing; otherwise the first applicable transition of that function is requested |
| `MethodCalls.MethodCallState.AddTransitions` | src/statomata/declarative/state.py:150-151 | the function's list is extended in order; other functions are untouched |
| `Builder.Negate` | src/statomata/declarative/builder.py:179-197 | `when_not` refuses a property without a getter with that TypeError and otherwise gives a callable |
| `Builder.NegateHolds` | src/statomata/declarative/builder.py:187-195 | the negated condition holds exactly when the original does not |
| `Builder.InitialOf` | src/statomata/declarative/builder.py:53-65 | the initial state exists exactly when one state only is initial, and it is that state; none gives "initial state is not set", several give "initial state ambiguity" |
| `Builder.FinalsOf` | src/statomata/declarative/builder.py:67-75 | the final states in order, non-empty; none gives "final state is not set" |
| `Builder.FallbacksOf` | src/statomata/declarative/builder.py:77-79 | exactly the states with a truthy fallback, in order |
| `Builder.StateRegistry.Initial` | src/statomata/declarative/builder.py:53-65 | `InitialOf` with ValueError; the result is an initial state of the registry |
| `Builder.StateRegistry.Finals` | src/statomata/declarative/builder.py:67-75 | `FinalsOf` with ValueError: it fails exactly when no state is final |
| `Builder.StateRegistry.Fallbacks` | src/statomata/declarative/builder.py:77-79 | `FallbacksOf` of the states: every state with a truthy fallback is in it |
| `Builder.TransitionRegistry.constructor` | src/statomata/declarative/builder.py:83-84 | a new registry is empty |
| `Builder.TransitionRegistry.Register` | src/statomata/declarative/builder.py:97-103 | a coroutine is refused with a TypeError and nothing changes; otherwise the builder is appended to the function's list, a new function goes last, and the registry stays well formed |
| `Builder.State.constructor` | src/statomata/declarative/builder.py:107-119 | fields as given; without a registry the state gets a fresh empty one |
| `Builder.State.To` | src/statomata/declarative/builder.py:129-131 | a fresh, unregistered builder from this state to the destination |
| `Builder.State.When` | src/statomata/declarative/builder.py:133-135 | a fresh builder from this state with the condition and no destination |
| `Builder.State.WhenNot` | src/statomata/declarative/builder.py:137-139 | a fresh builder with the negated condition, or the TypeError |
| `Builder.State.Ternary` | src/statomata/declarative/builder.py:141-143 | a ternary from this state |
| `Builder.State.Call` | src/statomata/declarative/builder.py:125-127 | decorating with a state registers one fresh unconditional transition from it to itself, after the function's existing ones; a coroutine function is refused with the `TypeError` and nothing is registered |
| `Builder.Transition.constructor` | src/statomata/declarative/builder.py:147-157 | fields as given |
| `Builder.Transition.To` | src/statomata/declarative/builder.py:169-172 | overwrites the destination and returns the same builder |
| `Builder.Transition.When` | src/statomata/declarative/builder.py:174-177 | overwrites the condition and returns the same builder |
| `Builder.Transition.WhenNot` | src/statomata/declarative/builder.py:179-197 | installs the negated condition on the same builder, or refuses and leaves it |
| `Builder.Transition.Ternary` | src/statomata/declarative/builder.py:199-201 | a fresh ternary from the same registry and source, as `MakeTernary` builds it: the guarded branch has the condition and no destination, the other branch has the negated condition and goes back to the source; a property without a getter gives the TypeError of `Negate` |
| `Builder.Transition.Call` | src/statomata/declarative/builder.py:163-167 | decorating registers this very builder after the function's existing ones; a coroutine function is refused with the `TypeError` and nothing is registered |
| `Builder.MakeTernary` | src/statomata/declarative/builder.py:205-213 | two fresh builders: one guarded by the condition with no destination, and one guarded by its negation going back to the source |
| `Builder.TernaryTransition.constructor` | src/statomata/declarative/builder.py:205-213 | fields as given |
| `Builder.TernaryTransition.Then` | src/statomata/declarative/builder.py:221-223 | sets the guarded branch's destination and returns the same ternary |
| `Builder.TernaryTransition.Otherwise` | src/statomata/declarative/builder.py:225-227 | sets the negated branch's destination and returns the same ternary |
| `Builder.TernaryTransition.Call` | src/statomata/declarative/builder.py:215-219 | decorating registers the guarded branch and then the negated one; a coroutine function is refused with the `TypeError` and nothing is registered |
| `Registries.Put` | src/statomata/declarative/config.py:41-47 | a dict store: an existing key keeps its place and gets the new value, a new key goes last, other entries are unchanged, and keys stay distinct |
| `Registries.MachineRegistry.Initial` | src/statomata/declarative/registry.py:21-33 | `InitialOf` over the registered states with InvalidOptionsError; the result is an initial state registered under some name |
| `Registries.MachineRegistry.Finals` | src/statomata/declarative/registry.py:35-43 | `FinalsOf` with InvalidOptionsError: it fails exactly when no registered state is final |
| `Registries.MachineRegistry.Fallbacks` | src/statomata/declarative/registry.py:45-47 | `FallbacksOf` of the registered states: every one with a truthy fallback is in it |
| `Config.NameOr` | src/statomata/declarative/config.py:40 | a state keeps a non-empty name and otherwise takes the attribute name |
| `Config.MethodsOf` | src/statomata/declarative/config.py:44-47 | exactly the methods that have options, each once |
| `Config.MethodsOfStores` | src/statomata/declarative/config.py:44-47 | each method is stored with the options of its last member in the listing |
| `Config.Collect` | src/statomata/declarative/config.py:31-49 | every state member is keyed by its final name, which it carries; a named state keeps its name; an unnamed one takes its attribute name; the methods are `MethodsOf` |
| `Config.FallbackClasses` | src/statomata/declarative/config.py:51-68 | True gives (Exception,), False gives (), one class gives itself, a sequence gives itself in order; the result is empty exactly when the fallback is falsy |
| `Config.CreateStateExecutor` | src/statomata/declarative/config.py:75-85 | a fresh executor in the initial state, with the fallback, and with a subscriber exactly when `subscribers` is non-empty |
| `Declarative.Normalize` | src/statomata/declarative/state_machine.py:214-219 | a coroutine or async-generator method is refused with a TypeError; any other is accepted |
| `Declarative.Sources` | src/statomata/declarative/state_machine.py:178-180 | the sources are exactly the transition source states plus the idempotent state, if any |
| `Declarative.Body` | src/statomata/declarative/state_machine.py:221-254 | without an idempotent state the function runs as is; in the idempotent state it is skipped; elsewhere it runs; either way the outcome is `returns(self)`, or None without `returns`, and errors pass through |
| `Declarative.Ran` | src/statomata/declarative/state_machine.py:273-293 | outside the sources the call raises `InvalidStateError(actual, expected=sources)` and changes nothing; otherwise the state is entered and nothing is left pending; on an error `is_finished` is unchanged; the notifications of a call are those `Declarative.CallNotifications` states |
| `Declarative.CallOutcome` | src/statomata/declarative/state_machine.py:284-293 | an error keeps the object as the function left it and moves to the fallback's state if any; an outcome moves along the first transition of (method, state at entry) that applies, or stays |
| `Declarative.CallNotifications` | src/statomata/declarative/state_machine.py:52-61 | a call that ran notifies, in order: `start` before the first call, `state_start`; then either one `state_outcome` and `state_finish`, plus a `transition` when a transition applies, or `state_error`, plus a `transition` when the fallback gives a state |
| `Declarative.IdempotentSkips` | src/statomata/declarative/state_machine.py:247-252 | in the idempotent state the object is untouched and the result is `returns(self)` or None |
| `Declarative.Registered` | src/statomata/declarative/state_machine.py:163-167 | registering a state for its classes maps each of them to it and leaves the others |
| `Declarative.FallbackLastWins` | src/statomata/declarative/state_machine.py:163-167 | a class is handled exactly when some fallback state lists it, and it goes to the last such state |
| `Declarative.SetupFallback` | src/statomata/declarative/state_machine.py:157-170 | the nested registration loop builds `FallbackTable` |
| `Declarative.Resolve` | src/statomata/declarative/state_machine.py:159-170 | dispatch picks the first class of the exception's hierarchy that is registered; none registered gives None |
| `Declarative.CatchAll` | src/statomata/declarative/config.py:58-59 | a state with `fallback=True` catches every exception |
| `Declarative.TableForEntry` | src/statomata/declarative/state_machine.py:151-152 | a source's transitions in one method's options are those listed for it |
| `Declarative.RegisteredForMethod` | src/statomata/declarative/state_machine.py:147-154 | with distinct methods, the table at (method, source) is that method's transitions for the source |
| `Declarative.RegisteredForNone` | src/statomata/declarative/state_machine.py:147-154 | a method without options has no transitions |
| `Declarative.ExtendedAt` | src/statomata/declarative/state_machine.py:151-152 | adding one method's entries changes only that method's keys, by appending |
| `Declarative.SetupTableAt` | src/statomata/declarative/state_machine.py:147-154 | the table after setup holds, at every key, what the options register for it |
| `Declarative.AddMethod` | src/statomata/declarative/state_machine.py:151-152 | the executor's table is the old one extended by the method's entries |
| `Declarative.MachineClass.constructor` | src/statomata/declarative/state_machine.py:113-122 | the class keeps its registry, transition executor and fallback table |
| `Declarative.Define` | src/statomata/declarative/state_machine.py:104-122 | defining a class fails with the TypeError exactly when a method is async; otherwise the fallback table is `FallbackTable` of the fallback states and every (method, source) key holds what the options register |
| `Declarative.DeclarativeStateMachine.constructor` | src/statomata/declarative/state_machine.py:124-135 | the object keeps its class, executor and attributes |
| `Declarative.DeclarativeStateMachine.Call` | src/statomata/declarative/state_machine.py:194-200 | a call of a decorated method leaves the executor, the attributes and the result as `Ran` says, with the transitions at (method, state at entry) |
| `Declarative.Create` | src/statomata/declarative/state_machine.py:124-135 | without an initial state the registry's must exist, else its error; the executor starts fresh in that state, with the class's fallback and a subscriber exactly when some are given |
| `NumberStore.Recover` | examples/state_machines/positive_number_store.py:26-29 | `recover` leaves only non-negative numbers |
| `NumberStore.Accepted` | examples/state_machines/positive_number_store.py:37-44 | the numbers before the first negative one: a non-negative prefix, followed by a negative number unless it is all of them |
| `NumberStore.Extend` | examples/state_machines/positive_number_store.py:37-44 | `extend` appends the numbers before the first negative one and raises ValueError exactly when there is one |
| `NumberStore.StoreTables` | examples/state_machines/positive_number_store.py:21-44 | the decorators give idle→opened for `open`, broken→opened for `recover`, broken and opened→closed for `close`, and opened→opened for `extend` |
| `NumberStore.StoreStates` | examples/state_machines/positive_number_store.py:8-11 | idle is the initial state and ValueError goes to broken |
| `NumberStore.NewStore` | tests/integration/test_declarative.py:50-55 | a new store is idle and empty, with nothing pending |
| `NumberStore.Open` | examples/state_machines/positive_number_store.py:21-24 | `open` moves idle to opened, does nothing in opened, and is refused elsewhere |
| `NumberStore.ExtendBy` | examples/state_machines/positive_number_store.py:37-44 | in opened, `extend` appends and stays, or raises ValueError and falls back to broken keeping the numbers before the negative one; elsewhere it is refused |
| `NumberStore.Recovered` | examples/state_machines/positive_number_store.py:26-29 | `recover` reopens a broken store without its negative numbers, does nothing in opened, and is refused elsewhere |
| `NumberStore.Close` | examples/state_machines/positive_number_store.py:31-35 | `close` moves opened or broken to closed and returns the numbers; in closed it returns them again; elsewhere it is refused |
| `NumberStore.Filling` | tests/integration/test_declarative.py:57-65 | open, open, extend(1, 2, 3), open, extend(4, 5) leaves the store opened with 1 to 5 |
| `NumberStore.Breaking` | tests/integration/test_declarative.py:67-76 | extend(6, -1, 7) raises ValueError, keeps 6 and breaks the store; extend(-5) is then refused |
| `NumberStore.Recovering` | tests/integration/test_declarative.py:78-82 | recover reopens the store with its numbers, and recovering again changes nothing |
| `NumberStore.Scenario` | tests/integration/test_declarative.py:54-89 | the whole test: the errors raised, the final state closed, and both closes return 1 to 6 |

## Left out

- The async twins are not modelled: the async executor, shells, transition executor and subscriber registry, and `Sync2AsyncTransitionAdapter`. Their logic is the sync logic awaited, and the adapter only forwards.
- Locks are not modelled. Calls are sequential.
- `anyio.py` and the logging modules are not modelled: they are stream glue and message formatting.
- The defer, recall and abort queue is not modelled: `abc.py` declares `defer`, `recall` and `abort` on `Context`, but `StateMachineExecutor` in `executor.py` implements none of them. `is_aborted` is a caller-given predicate on the executor.
- Generator methods of declarative classes are not modelled, nor their idempotent wrapper that drains the generator.
- `freeze`, `get_method_options` and the compilation of builder `Transition`s into `MethodOptions` are not modelled; `builder.py` defines none of them. The declarative runtime takes `MethodOptions` as given data.
- `set_state`'s `final` keyword is not modelled. `MethodCalls.Perform` returns it, but the executor has no use for it.
- Finals.Handle: the raised error carries the reason and the details but not the event and the context that follow them in the source.
- NumberStore.StoreRegistry: the example's registry is given directly, as `registry` would collect it (attributes in name order), rather than built by `Config.Collect`; its states therefore keep the name they were declared with (none) instead of `broken`, `closed`, `idle` and `opened`.
- NumberStore.Extend: the ValueError carries the message but not the offending number.
- Exception arguments beyond the message are not modelled. These are the extra arguments of `ValueError(msg, n)`, `TypeError(msg, func, ...)` and `InvalidOptionsError(msg, states)`, and the attributes of `InvalidStateError`.
- `Declarative.Ran` records the income of the notifications as the object's attributes, not the object's identity.
- A `State`'s flags (`initial`, `final`, `fallback`) are constants, since nothing in `builder.py` or `config.py` reassigns `initial`, `final` or `fallback` after construction. Only `name` is reassigned.
- Method identity is a `Func` value (name and kind), not a function object.
- Config.Collect: takes the class attributes in the order `inspect.getmembers` lists them (sorted by name) as its input, and does not state which of two states with the same name is kept (the later one is).
- `State.freeze`, which `registry` calls on each state, is not defined in `builder.py` and is not modelled.
- The `defaultdict` lookup that inserts an empty list for an unknown key is not modelled; `Lookup` gives the empty list without storing it.
- Transitions.PerformOn, MethodCalls.MethodCallState.Handle, Declarative.Body and Declarative.Ran take transition conditions, key functions, `returns` getters and subscribers to be total: they never raise. In the source, these run inside the visit (`state_machine.py` runs `transitions.execute` and `handle_outcome` inside `visit_state`; `state.py`'s `handle` runs inside the unary visit). An exception from one of them would go to `handle_state_error` and the fallback and then be raised again. The model has no such path.
- `Iterable.Produce` models a generator that raises part-way as a batch of outcomes plus an error. It does not model consumers that stop reading early.
- `NumberStore.Extend` is a recursive function rather than a loop: it is passed to the machine as the method's body, and a function cannot call a method.
