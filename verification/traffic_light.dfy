/**
 * The traffic-light machine of tests/stub/traffic_light_machine.py driven
 * through the unary shell: three states that cycle on a Cycle event and
 * answer a Go event in place.
 */
module TrafficLight {
  import opened Wrappers
  import opened Executors
  import opened Unary

  datatype Light = Green | Yellow | Red
  datatype TrafficEvent = Go | Cycle

  /** The light after `Cycle`. */
  function Following(l: Light): Light {
    match l
    case Green => Yellow
    case Yellow => Red
    case Red => Green
  }

  /** Each light's `handle`: Cycle moves to the next light, Go stays. */
  function Handle(l: Light, e: TrafficEvent): (r: Reply<Light, string>)
    ensures r.Returned?
    ensures r.request == (if e == Cycle then Some(User(Following(l))) else None)
  {
    match (l, e)
    case (Green, Go) => Returned("you can go", None)
    case (Green, Cycle) => Returned("switched to yellow", Some(User(Yellow)))
    case (Yellow, Go) => Returned("you may go on your own risk", None)
    case (Yellow, Cycle) => Returned("switched to red", Some(User(Red)))
    case (Red, Go) => Returned("you can't go!", None)
    case (Red, Cycle) => Returned("switched to green", Some(User(Green)))
  }

  /** The light after `n` cycles from Green. */
  function LightAfter(n: nat): Light {
    if n == 0 then Green else Following(LightAfter(n - 1))
  }

  const Incomes: seq<TrafficEvent> := [Go, Cycle, Go, Cycle, Go, Cycle, Go, Cycle]
  const Expected: seq<string> := [
    "you can go", "switched to yellow",
    "you may go on your own risk", "switched to red",
    "you can't go!", "switched to green",
    "you can go", "switched to yellow"]

  /**
   * A fresh machine in Green, without fallback or subscriber, fed Go and
   * Cycle four times, answers with the eight strings in order.
   */
  method Scenario() returns (outs: seq<string>)
    ensures outs == Expected
  {
    var executor := new StateMachineExecutor<Light, TrafficEvent, string>(User(Green), None, false);
    var machine := new UnaryStateMachine(executor);
    outs := [];
    var i := 0;
    while i < |Incomes|
      invariant 0 <= i <= |Incomes|
      invariant executor.state == User(LightAfter(i / 2)) && executor.next == None
      invariant !executor.hasSubscriber && executor.fallback == None
      invariant outs == Expected[..i]
    {
      assert Expected[i] == Handle(LightAfter(i / 2), Incomes[i]).outcome by {
        assert LightAfter(1) == Yellow && LightAfter(2) == Red && LightAfter(3) == Green;
      }
      var r := machine.Run(Incomes[i], Handle);
      if r.Failure? {
        assert false;
      }
      outs := outs + [r.value];
      i := i + 1;
    }
  }
}
