/** At most one update per container id at a time. */
module UpdateGuard {
  import opened Text

  /** The guard set and the running calls, by call number. */
  datatype Guard = Guard(inFlight: set<string>, running: map<nat, string>)

  datatype Event = Call(call: nat, id: string) | Return(call: nat)

  predicate CanHappen(g: Guard, e: Event) {
    match e
    case Call(call, _) => call !in g.running
    case Return(call) => call in g.running
  }

  /** A call on an id in flight is answered at once and never runs. */
  function After(g: Guard, e: Event): Guard
    requires CanHappen(g, e)
  {
    match e
    case Call(call, id) => if id in g.inFlight then g else Guard(g.inFlight + {id}, g.running[call := id])
    case Return(call) => Guard(g.inFlight - {g.running[call]}, g.running - {call})
  }

  ghost predicate GuardRun(states: seq<Guard>, events: seq<Event>) {
    && |states| == |events| + 1 && states[0] == Guard({}, map[])
    && forall i :: 0 <= i < |events| ==> CanHappen(states[i], events[i]) && states[i + 1] == After(states[i], events[i])
  }

  ghost predicate IsRunning(g: Guard, id: string) {
    exists c <- g.running :: g.running[c] == id
  }

  ghost predicate OneEach(g: Guard) {
    && (forall id :: id in g.inFlight <==> IsRunning(g, id))
    && forall c, d :: c in g.running && d in g.running && c != d ==> g.running[c] != g.running[d]
  }

  lemma StartKeepsOne(g: Guard, call: nat, id: string)
    requires OneEach(g) && call !in g.running && id !in g.inFlight
    ensures OneEach(Guard(g.inFlight + {id}, g.running[call := id]))
  {
    var n := Guard(g.inFlight + {id}, g.running[call := id]);
    forall other
      ensures other in n.inFlight <==> IsRunning(n, other)
    {
      if other == id {
        assert n.running[call] == id;
      } else if IsRunning(g, other) {
        var c :| c in g.running && g.running[c] == other;
        assert n.running[c] == other;
      }
    }
    assert !IsRunning(g, id);
  }

  lemma ReturnKeepsOne(g: Guard, call: nat)
    requires OneEach(g) && call in g.running
    ensures OneEach(Guard(g.inFlight - {g.running[call]}, g.running - {call}))
  {
    var n := Guard(g.inFlight - {g.running[call]}, g.running - {call});
    forall other
      ensures other in n.inFlight <==> IsRunning(n, other)
    {
      if other in n.inFlight {
        var c :| c in g.running && g.running[c] == other;
        assert n.running[c] == other;
      }
    }
  }

  lemma StepKeepsOne(g: Guard, e: Event)
    requires OneEach(g) && CanHappen(g, e)
    ensures OneEach(After(g, e))
  {
    hide OneEach;
    match e
    case Call(call, id) => if id !in g.inFlight { StartKeepsOne(g, call, id); }
    case Return(call) => ReturnKeepsOne(g, call);
  }

  /** In every run, two running updates are on different containers, and a call runs exactly when its id has none. */
  lemma {:induction false} UpdatesNeverOverlap(states: seq<Guard>, events: seq<Event>, i: nat)
    requires GuardRun(states, events) && i < |states|
    ensures OneEach(states[i])
    ensures i < |events| && events[i].Call? ==>
      (events[i].call in states[i + 1].running
       <==> forall c <- states[i].running :: states[i].running[c] != events[i].id)
  {
    hide OneEach;
    if i > 0 {
      UpdatesNeverOverlap(states, events, i - 1);
      StepKeepsOne(states[i - 1], events[i - 1]);
    } else {
      NoneRunning();
    }
    if i < |events| && events[i].Call? {
      CallRuns(states[i], events[i]);
    }
  }

  /** The part of `UpdatesService` that keeps the guard. */
  class UpdatesService {
    var applyInFlight: set<string>
    ghost var guard: Guard

    ghost predicate Valid()
      reads this
    {
      guard.inFlight == applyInFlight && OneEach(guard)
    }

    constructor ()
      ensures Valid() && guard == Guard({}, map[])
    {
      applyInFlight, guard := {}, Guard({}, map[]);
    }

    /** Everything before the first await; a refused call is answered at once. */
    method Enter(ghost call: nat, containerId: string) returns (runs: bool)
      requires Valid() && call !in guard.running
      modifies this
      ensures Valid() && guard == After(old(guard), Event.Call(call, containerId))
      ensures runs <==> call in guard.running
    {
      StepKeepsOne(guard, Event.Call(call, containerId));
      guard := After(guard, Event.Call(call, containerId));
      if containerId in applyInFlight {
        return false;
      }
      applyInFlight := applyInFlight + {containerId};
      return true;
    }

    /** The `finally` block of a call that runs. */
    method Leave(ghost call: nat, containerId: string)
      requires Valid() && call in guard.running && guard.running[call] == containerId
      modifies this
      ensures Valid() && guard == After(old(guard), Return(call))
    {
      StepKeepsOne(guard, Return(call));
      guard := After(guard, Return(call));
      applyInFlight := applyInFlight - {containerId};
    }
  }

  lemma NoneRunning()
    ensures OneEach(Guard({}, map[]))
  {
  }

  lemma CallRuns(g: Guard, e: Event)
    requires OneEach(g) && e.Call? && CanHappen(g, e)
    ensures e.call in After(g, e).running <==> forall c <- g.running :: g.running[c] != e.id
  {
  }
}
