/** `withProjectLock`: a mutex per project made of chained promises. */
module ProjectLock {
  import opened Text

  datatype Phase = Waiting | Holding | Finished

  /** One call. `prev` is the chain it found in the map, named after the call that put it there. */
  datatype Call = Call(project: string, prev: Option<nat>, phase: Phase)

  /** Call `k` owns chain `k`; the map keeps the newest chain of each project. */
  datatype Lock = Lock(calls: seq<Call>, chains: map<string, nat>)

  const FREE := Lock([], map[])

  /** Chain `k` resolves once the chain before it has and gate `k` is released. */
  predicate Resolved(l: Lock, k: nat)
    requires k < |l.calls|
  {
    && l.calls[k].phase == Finished
    && (l.calls[k].prev.Some? ==> l.calls[k].prev.value < k && Resolved(l, l.calls[k].prev.value))
  }

  predicate CanEnter(l: Lock, k: nat) {
    && k < |l.calls| && l.calls[k].phase == Waiting
    && (l.calls[k].prev.Some? ==> l.calls[k].prev.value < k && Resolved(l, l.calls[k].prev.value))
  }

  predicate CanLeave(l: Lock, k: nat) {
    k < |l.calls| && l.calls[k].phase == Holding
  }

  function Arrive(l: Lock, project: string): Lock {
    var prev := if project in l.chains then Some(l.chains[project]) else None;
    Lock(l.calls + [Call(project, prev, Waiting)], l.chains[project := |l.calls|])
  }

  function Enter(l: Lock, k: nat): Lock
    requires CanEnter(l, k)
  {
    l.(calls := l.calls[k := l.calls[k].(phase := Holding)])
  }

  /** The `finally` block, the same whether the holder returned or threw. */
  function Leave(l: Lock, k: nat): Lock
    requires CanLeave(l, k)
  {
    var id := l.calls[k].project;
    Lock(l.calls[k := l.calls[k].(phase := Finished)],
         if id in l.chains && l.chains[id] == k then l.chains - {id} else l.chains)
  }

  ghost predicate Linked(l: Lock, k: nat)
    requires k < |l.calls|
  {
    match l.calls[k].prev
    case Some(p) =>
      && p < k && l.calls[p].project == l.calls[k].project
      && (forall j :: p < j < k ==> l.calls[j].project != l.calls[k].project)
    case None =>
      forall j :: 0 <= j < k && l.calls[j].project == l.calls[k].project ==> l.calls[j].phase == Finished
  }

  ghost predicate InOrder(l: Lock) {
    forall j, k | 0 <= j < k < |l.calls| && l.calls[j].project == l.calls[k].project ::
      l.calls[k].phase != Waiting ==> l.calls[j].phase == Finished
  }

  ghost predicate Newest(l: Lock, id: string)
    requires id in l.chains
  {
    var k := l.chains[id];
    && k < |l.calls| && l.calls[k].project == id && l.calls[k].phase != Finished
    && (forall j :: k < j < |l.calls| ==> l.calls[j].project != id)
  }

  ghost predicate Valid(l: Lock) {
    && (forall k :: 0 <= k < |l.calls| ==> Linked(l, k))
    && InOrder(l)
    && (forall id <- l.chains :: Newest(l, id))
    && (forall k :: 0 <= k < |l.calls| && l.calls[k].phase != Finished ==> l.calls[k].project in l.chains)
  }

  lemma ArriveKeeps(l: Lock, id: string)
    requires Valid(l)
    ensures Valid(Arrive(l, id))
  {
    var n := Arrive(l, id);
    var last := |l.calls|;
    forall k | 0 <= k < |n.calls| ensures Linked(n, k) {
      if k < last {
        assert Linked(l, k);
      } else if id in l.chains {
        assert Newest(l, id);
      }
    }
    forall j | j in n.chains ensures Newest(n, j) {
      if j != id {
        assert Newest(l, j);
      }
    }
  }

  /** A resolved chain means every call on that project up to it is over. */
  lemma {:induction false} ResolvedCovers(l: Lock, p: nat, j: nat)
    requires Valid(l) && j <= p < |l.calls| && Resolved(l, p) && l.calls[j].project == l.calls[p].project
    ensures l.calls[j].phase == Finished
  {
    assert Linked(l, p);
    if j < p && l.calls[p].prev.Some? {
      if j <= l.calls[p].prev.value {
        ResolvedCovers(l, l.calls[p].prev.value, j);
      }
    }
  }

  lemma EnterKeeps(l: Lock, k: nat)
    requires Valid(l) && CanEnter(l, k)
    ensures Valid(Enter(l, k))
  {
    var n := Enter(l, k);
    CanEnterMeansFirst(l, k);
    forall i | 0 <= i < |n.calls| ensures Linked(n, i) {
      assert Linked(l, i);
    }
    forall id | id in n.chains ensures Newest(n, id) {
      assert Newest(l, id);
    }
  }

  lemma LeaveKeeps(l: Lock, k: nat)
    requires Valid(l) && CanLeave(l, k)
    ensures Valid(Leave(l, k))
  {
    hide Linked, Newest;
    var n := Leave(l, k);
    forall i | 0 <= i < |n.calls| ensures Linked(n, i) {
      LeaveKeepsLinked(l, k, i);
    }
    forall id | id in n.chains ensures Newest(n, id) {
      LeaveKeepsNewest(l, k, id);
    }
    forall i | 0 <= i < |n.calls| && n.calls[i].phase != Finished ensures n.calls[i].project in n.chains {
      LeaveKeepsBusy(l, k, i);
    }
  }

  lemma LeaveKeepsLinked(l: Lock, k: nat, i: nat)
    requires CanLeave(l, k) && i < |l.calls| && Linked(l, i)
    ensures Linked(Leave(l, k), i)
  {
  }

  lemma LeaveKeepsNewest(l: Lock, k: nat, id: string)
    requires CanLeave(l, k) && id in Leave(l, k).chains && Newest(l, id)
    requires l.calls[k].project in l.chains
    ensures Newest(Leave(l, k), id)
  {
  }

  lemma LeaveKeepsBusy(l: Lock, k: nat, i: nat)
    requires CanLeave(l, k) && i < |l.calls| && i != k && l.calls[i].phase != Finished && InOrder(l)
    requires l.calls[i].project in l.chains && Newest(l, l.calls[i].project)
    ensures l.calls[i].project in Leave(l, k).chains
  {
  }

  // ---- What the lock guarantees in every reachable state

  datatype Event = Arrives(project: string) | Enters(k: nat) | Leaves(k: nat)

  predicate Enabled(l: Lock, e: Event) {
    match e
    case Arrives(_) => true
    case Enters(k) => CanEnter(l, k)
    case Leaves(k) => CanLeave(l, k)
  }

  function Step(l: Lock, e: Event): Lock
    requires Enabled(l, e)
  {
    match e
    case Arrives(id) => Arrive(l, id)
    case Enters(k) => Enter(l, k)
    case Leaves(k) => Leave(l, k)
  }

  predicate CanRun(l: Lock, events: seq<Event>)
    decreases |events|
  {
    events != [] ==> Enabled(l, events[0]) && CanRun(Step(l, events[0]), events[1..])
  }

  function Run(l: Lock, events: seq<Event>): Lock
    requires CanRun(l, events)
    decreases |events|
  {
    if events == [] then l else Run(Step(l, events[0]), events[1..])
  }

  lemma {:induction false} RunKeeps(l: Lock, events: seq<Event>)
    requires Valid(l) && CanRun(l, events)
    ensures Valid(Run(l, events))
    decreases |events|
  {
    if events != [] {
      match events[0] {
        case Arrives(id) => ArriveKeeps(l, id);
        case Enters(k) => EnterKeeps(l, k);
        case Leaves(k) => LeaveKeeps(l, k);
      }
      RunKeeps(Step(l, events[0]), events[1..]);
    }
  }

  lemma CanEnterMeansFirst(l: Lock, k: nat)
    requires Valid(l) && CanEnter(l, k)
    ensures forall j :: 0 <= j < k && l.calls[j].project == l.calls[k].project ==> l.calls[j].phase == Finished
  {
    assert Linked(l, k);
    forall j | 0 <= j < k && l.calls[j].project == l.calls[k].project ensures l.calls[j].phase == Finished {
      if l.calls[k].prev.Some? {
        ResolvedCovers(l, l.calls[k].prev.value, j);
      }
    }
  }

  lemma {:induction false} FirstMeansResolved(l: Lock, p: nat)
    requires Valid(l) && p < |l.calls|
    requires forall j :: 0 <= j <= p && l.calls[j].project == l.calls[p].project ==> l.calls[j].phase == Finished
    ensures Resolved(l, p)
  {
    assert Linked(l, p);
    if l.calls[p].prev.Some? {
      FirstMeansResolved(l, l.calls[p].prev.value);
    }
  }

  /** A waiting call may enter exactly when every earlier call on its project is over. So the lock goes
      on in arrival order, however the holder before it ended. */
  lemma ArrivalOrder(events: seq<Event>, k: nat)
    requires CanRun(FREE, events) && k < |Run(FREE, events).calls|
    requires Run(FREE, events).calls[k].phase == Waiting
    ensures var l := Run(FREE, events);
            CanEnter(l, k) <==>
            forall j :: 0 <= j < k && l.calls[j].project == l.calls[k].project ==> l.calls[j].phase == Finished
  {
    RunKeeps(FREE, events);
    var l := Run(FREE, events);
    assert Linked(l, k);
    if CanEnter(l, k) {
      CanEnterMeansFirst(l, k);
    } else if l.calls[k].prev.Some? {
      var p := l.calls[k].prev.value;
      if forall j :: 0 <= j < k && l.calls[j].project == l.calls[k].project ==> l.calls[j].phase == Finished {
        FirstMeansResolved(l, p);
      }
    }
  }

  /** At most one call holds a project, and every call before the holder is over. */
  lemma Exclusion(events: seq<Event>, j: nat, k: nat)
    requires CanRun(FREE, events) && j < k < |Run(FREE, events).calls|
    requires var l := Run(FREE, events); l.calls[j].project == l.calls[k].project
    ensures var l := Run(FREE, events);
            && !(l.calls[j].phase == Holding && l.calls[k].phase == Holding)
            && (l.calls[k].phase == Holding ==> l.calls[j].phase == Finished)
  {
    RunKeeps(FREE, events);
  }

  /** The map holds an entry for a project exactly while some call on it is unfinished. */
  lemma EntryWhileBusy(events: seq<Event>, id: string)
    requires CanRun(FREE, events)
    ensures var l := Run(FREE, events);
            id in l.chains <==> exists k :: 0 <= k < |l.calls| && l.calls[k].project == id && l.calls[k].phase != Finished
  {
    RunKeeps(FREE, events);
    var l := Run(FREE, events);
    if id in l.chains {
      assert Newest(l, id);
    }
  }

  /** A busy project without a holder always has a call that may enter. */
  lemma NeverStuck(events: seq<Event>, id: string) returns (k: nat)
    requires CanRun(FREE, events) && id in Run(FREE, events).chains
    ensures var l := Run(FREE, events);
            k < |l.calls| && l.calls[k].project == id && (l.calls[k].phase == Holding || CanEnter(l, k))
  {
    RunKeeps(FREE, events);
    var l := Run(FREE, events);
    assert Newest(l, id);
    k := Earliest(l, id, 0, l.chains[id]);
    if l.calls[k].phase == Waiting {
      ArrivalOrder(events, k);
    }
  }

  /** The first unfinished call on a project. */
  lemma {:induction false} Earliest(l: Lock, id: string, from: nat, last: nat) returns (k: nat)
    requires from <= last < |l.calls| && l.calls[last].project == id && l.calls[last].phase != Finished
    requires forall j :: 0 <= j < from && l.calls[j].project == id ==> l.calls[j].phase == Finished
    ensures k < |l.calls| && l.calls[k].project == id && l.calls[k].phase != Finished
    ensures forall j :: 0 <= j < k && l.calls[j].project == id ==> l.calls[j].phase == Finished
    decreases last - from
  {
    if l.calls[from].project == id && l.calls[from].phase != Finished {
      k := from;
    } else {
      k := Earliest(l, id, from + 1, last);
    }
  }

  /** The part of `ComposeService` that keeps the chains. */
  class Chains {
    var calls: seq<Call>
    var projectChains: map<string, nat>

    ghost function Value(): Lock
      reads this
    {
      Lock(calls, projectChains)
    }

    constructor ()
      ensures Value() == FREE && Valid(Value())
    {
      calls, projectChains := [], map[];
    }

    /** Everything before the first await: read the old chain, install the new one. */
    method Arrives(project: string) returns (k: nat)
      requires Valid(Value())
      modifies this
      ensures Valid(Value()) && Value() == Arrive(old(Value()), project) && k == |old(calls)|
    {
      ArriveKeeps(Value(), project);
      k := |calls|;
      var prev := if project in projectChains then Some(projectChains[project]) else None;
      calls := calls + [Call(project, prev, Waiting)];
      projectChains := projectChains[project := k];
    }

    /** The await on the old chain is over. */
    method Enters(k: nat)
      requires Valid(Value()) && CanEnter(Value(), k)
      modifies this
      ensures Valid(Value()) && Value() == Enter(old(Value()), k)
    {
      EnterKeeps(Value(), k);
      calls := calls[k := calls[k].(phase := Holding)];
    }

    method Leaves(k: nat)
      requires Valid(Value()) && CanLeave(Value(), k)
      modifies this
      ensures Valid(Value()) && Value() == Leave(old(Value()), k)
    {
      LeaveKeeps(Value(), k);
      var id := calls[k].project;
      calls := calls[k := calls[k].(phase := Finished)];
      if id in projectChains && projectChains[id] == k {
        projectChains := projectChains - {id};
      }
    }
  }
}
