/** Graceful shutdown: which sessions are active, and when the waiting ends. */
module Shutdown {

  datatype State = State(shuttingDown: bool, active: set<string>, event: bool)

  /** What other tasks do to the manager. */
  datatype Step = Register(id: string) | Unregister(id: string) | Initiate

  function After(s: State, step: Step): State {
    match step
    case Register(id) => if s.shuttingDown then s else s.(active := s.active + {id})
    case Unregister(id) =>
      var left := s.active - {id};
      s.(active := left, event := s.event || (s.shuttingDown && left == {}))
    case Initiate => s.(shuttingDown := true, event := s.event || s.active == {})
  }

  function AfterAll(s: State, steps: seq<Step>): State
    decreases |steps|
  {
    if steps == [] then s else AfterAll(After(s, steps[0]), steps[1..])
  }

  const START := State(false, {}, false)

  /** In every reachable state the event is set exactly if shutdown has begun and no session is active. */
  predicate EventExact(s: State) { s.event <==> s.shuttingDown && s.active == {} }

  lemma {:induction false} EventAlwaysExact(s: State, steps: seq<Step>)
    requires EventExact(s)
    ensures EventExact(AfterAll(s, steps))
    decreases |steps|
  {
    if steps != [] { EventAlwaysExact(After(s, steps[0]), steps[1..]); }
  }

  /** Once shutdown has begun, sessions only end, and a set event stays set. */
  lemma {:induction false} OnlyFewer(s: State, steps: seq<Step>)
    requires EventExact(s) && s.shuttingDown
    ensures var r := AfterAll(s, steps);
            r.shuttingDown && r.active <= s.active && EventExact(r) && (s.event ==> r.event)
    decreases |steps|
  {
    if steps != [] { OnlyFewer(After(s, steps[0]), steps[1..]); }
  }

  /** Nothing active is final exactly if shutdown has begun; before that a session may still come. */
  lemma DrainedForeverIff(s: State)
    requires EventExact(s) && s.active == {}
    ensures s.shuttingDown <==> forall steps :: AfterAll(s, steps).active == {}
  {
    if s.shuttingDown {
      forall steps ensures AfterAll(s, steps).active == {} { OnlyFewer(s, steps); }
    } else {
      var steps := [Register("x")];
      assert AfterAll(s, steps) == AfterAll(After(s, steps[0]), []);
      assert "x" in AfterAll(s, steps).active;
    }
  }

  class ShutdownManager {
    var shuttingDown: bool
    var activeSessions: set<string>
    var shutdownEvent: bool

    constructor ()
      ensures Value() == START
    {
      shuttingDown, activeSessions, shutdownEvent := false, {}, false;
    }

    function Value(): State reads this { State(shuttingDown, activeSessions, shutdownEvent) }

    method RegisterSession(id: string) returns (registered: bool)
      modifies this
      ensures Value() == After(old(Value()), Register(id))
      ensures registered <==> !shuttingDown
    {
      if shuttingDown { return false; }
      activeSessions := activeSessions + {id};
      registered := true;
    }

    method UnregisterSession(id: string)
      modifies this
      ensures Value() == After(old(Value()), Unregister(id))
    {
      activeSessions := activeSessions - {id};
      if shuttingDown && |activeSessions| == 0 { shutdownEvent := true; }
    }

    method InitiateShutdown()
      modifies this
      ensures Value() == After(old(Value()), Initiate)
    {
      shuttingDown := true;
      if |activeSessions| == 0 { shutdownEvent := true; }
    }

    /**
     Waiting while other tasks do `meanwhile` until the timeout. It is over at once when nothing
     is active, else as soon as the event is set, which shows a drained manager.
     */
    method WaitForSessions(meanwhile: seq<Step>) returns (drained: bool, passed: nat)
      requires EventExact(Value())
      modifies this
      ensures passed <= |meanwhile| && Value() == AfterAll(old(Value()), meanwhile[..passed]) && EventExact(Value())
      ensures drained ==> activeSessions == {} && (old(shuttingDown) || passed > 0 ==> shuttingDown && shutdownEvent)
      ensures drained <==> old(activeSessions) == {} || AfterAll(old(Value()), meanwhile).event
    {
      passed := 0;
      if |activeSessions| == 0 { return true, 0; }
      ghost var s := Value();
      while !shutdownEvent && passed < |meanwhile|
        invariant passed <= |meanwhile| && Value() == AfterAll(s, meanwhile[..passed]) && EventExact(Value())
        decreases |meanwhile| - passed
      {
        AppendStep(s, meanwhile[..passed], meanwhile[passed]);
        assert meanwhile[..passed + 1] == meanwhile[..passed] + [meanwhile[passed]];
        match meanwhile[passed] {
          case Register(id) => var _ := RegisterSession(id);
          case Unregister(id) => UnregisterSession(id);
          case Initiate => InitiateShutdown();
        }
        passed := passed + 1;
      }
      assert meanwhile == meanwhile[..passed] + meanwhile[passed..];
      AppendSteps(s, meanwhile[..passed], meanwhile[passed..]);
      if shutdownEvent { OnlyFewer(Value(), meanwhile[passed..]); }
      drained := shutdownEvent;
    }
  }

  lemma {:induction false} AppendSteps(s: State, a: seq<Step>, b: seq<Step>)
    ensures AfterAll(s, a + b) == AfterAll(AfterAll(s, a), b)
    decreases |a|
  {
    if a == [] { assert a + b == b; } else {
      AppendSteps(After(s, a[0]), a[1..], b);
      assert (a + b)[1..] == a[1..] + b;
    }
  }

  lemma AppendStep(s: State, a: seq<Step>, step: Step)
    ensures AfterAll(s, a + [step]) == After(AfterAll(s, a), step)
  {
    AppendSteps(s, a, [step]);
    assert AfterAll(AfterAll(s, a), [step]) == AfterAll(After(AfterAll(s, a), step), [step][1..]);
  }

  /** The registration at `i` came before shutdown and was not followed by its end. */
  ghost predicate RegisteredAt(steps: seq<Step>, id: string, i: int) {
    && 0 <= i < |steps| && steps[i] == Register(id)
    && (forall j :: 0 <= j < i ==> steps[j] != Initiate)
    && forall j :: i < j < |steps| ==> steps[j] != Unregister(id)
  }

  lemma {:induction false} ShuttingDownIff(steps: seq<Step>)
    ensures AfterAll(START, steps).shuttingDown <==> Initiate in steps
  {
    if steps != [] {
      var m, last := steps[..|steps| - 1], steps[|steps| - 1];
      ShuttingDownIff(m);
      AppendStep(START, m, last);
      assert steps == m + [last];
    }
  }

  /** Exactly the sessions registered before shutdown and not ended since are active. */
  lemma {:induction false} ActiveIff(steps: seq<Step>, id: string)
    ensures id in AfterAll(START, steps).active <==> exists i :: RegisteredAt(steps, id, i)
  {
    if steps != [] {
      var n := |steps| - 1;
      var m, last := steps[..n], steps[n];
      ActiveIff(m, id);
      ShuttingDownIff(m);
      AppendStep(START, m, last);
      assert steps == m + [last];
      forall i | 0 <= i < n ensures RegisteredAt(steps, id, i) <==> RegisteredAt(m, id, i) && last != Unregister(id) {}
      assert RegisteredAt(steps, id, n) <==> last == Register(id) && Initiate !in m;
    }
  }
}
