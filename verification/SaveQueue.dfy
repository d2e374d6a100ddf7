/** The web client's save queue, one atomic step between two awaits. */
module SaveQueue {
  import opened Text

  /** Where `run` is suspended. */
  datatype Point<+L> = NotRunning | AwaitSave(snapshot: L) | AwaitReload

  datatype Queue<+L> = Queue(revision: nat, latest: Option<L>, inflight: bool, rerun: bool, at: Point<L>)

  datatype Call<+L> = Call(layout: L, revision: nat)

  /** A new queue state and the save call the step issues, if any. */
  datatype Turn<+L> = Turn(queue: Queue<L>, call: Option<Call<L>>)

  function Fresh<L>(): Queue<L> {
    Queue(0, None, false, false, NotRunning)
  }

  /** While a save is out, only a submit that leaves its mark can move `latest` off the snapshot. */
  ghost predicate Valid<L>(q: Queue<L>) {
    && (q.inflight <==> q.at != NotRunning)
    && (q.inflight ==> q.latest.Some?)
    && (!q.inflight ==> !q.rerun)
    && (q.at.AwaitSave? && !q.rerun ==> q.latest == Some(q.at.snapshot))
  }

  /** One entry into the loop body, up to the save call. */
  function Start<L>(q: Queue<L>): Turn<L>
    requires q.latest.Some?
  {
    Turn(q.(inflight := true, rerun := false, at := AwaitSave(q.latest.value)),
         Some(Call(q.latest.value, q.revision)))
  }

  /** The `finally` block. */
  function Finish<L>(q: Queue<L>): Turn<L> {
    var idle := q.(inflight := false, at := NotRunning);
    if q.rerun && q.latest.Some? then Start(idle) else Turn(idle, None)
  }

  function OnSubmit<L>(q: Queue<L>, layout: L): Turn<L> {
    var next := q.(latest := Some(layout));
    if q.inflight then Turn(next.(rerun := true), None) else Start(next)
  }

  function OnSaved<L(==)>(q: Queue<L>, revision: nat): Turn<L>
    requires q.at.AwaitSave? && q.latest.Some?
  {
    var next := q.(revision := revision);
    if !q.rerun && q.latest == Some(q.at.snapshot) then Finish(next) else Start(next)
  }

  function OnFailed<L>(q: Queue<L>): Turn<L> {
    Finish(q)
  }

  function OnConflict<L>(q: Queue<L>): Queue<L> {
    q.(at := AwaitReload)
  }

  function OnReloaded<L>(q: Queue<L>, layout: L, revision: nat): Turn<L> {
    Finish(q.(revision := revision, latest := Some(layout)))
  }

  /** The closure behind `createLayoutSaveQueue`. */
  class LayoutSaveQueue<L(==)> {
    var revision: nat
    var latest: Option<L>
    var inflight: bool
    var rerun: bool
    var at: Point<L>

    ghost function Value(): Queue<L>
      reads this
    {
      Queue(revision, latest, inflight, rerun, at)
    }

    constructor ()
      ensures Value() == Fresh() && Valid(Value())
    {
      revision, latest, inflight, rerun, at := 0, None, false, false, NotRunning;
    }

    method SetRevision(value: nat)
      modifies this
      ensures Value() == old(Value()).(revision := value)
    {
      revision := value;
    }

    /** `submit`: runs until the first await, or only leaves a mark when a run is under way. */
    method Submit(layout: L) returns (call: Option<Call<L>>)
      requires Valid(Value())
      modifies this
      ensures Valid(Value()) && Turn(Value(), call) == OnSubmit(old(Value()), layout)
    {
      latest := Some(layout);
      if inflight {
        rerun := true;
        return None;
      }
      call := Run();
    }

    /** `run` from its entry to its first await. */
    method Run() returns (call: Option<Call<L>>)
      requires !inflight && latest.Some?
      modifies this
      ensures Valid(Value()) && Turn(Value(), call) == Start(old(Value()))
    {
      inflight := true;
      rerun := false;
      at := AwaitSave(latest.value);
      call := Some(Call(latest.value, revision));
    }

    /** The save promise resolves with the new revision. */
    method Saved(result: nat) returns (call: Option<Call<L>>)
      requires Valid(Value()) && at.AwaitSave?
      modifies this
      ensures Valid(Value()) && Turn(Value(), call) == OnSaved(old(Value()), result)
    {
      revision := result;
      if !rerun && latest == Some(at.snapshot) {
        call := Leave();
      } else {
        rerun := false;
        at := AwaitSave(latest.value);
        call := Some(Call(latest.value, revision));
      }
    }

    /** The save promise rejects; a conflict leads to the reload, any other error ends the run. */
    method Rejected(conflict: bool) returns (call: Option<Call<L>>)
      requires Valid(Value()) && at.AwaitSave?
      modifies this
      ensures Valid(Value())
      ensures conflict ==> Value() == OnConflict(old(Value())) && call == None
      ensures !conflict ==> Turn(Value(), call) == OnFailed(old(Value()))
    {
      if conflict {
        at := AwaitReload;
        return None;
      }
      call := Leave();
    }

    /** The reload promise resolves. */
    method Reloaded(layout: L, remote: nat) returns (call: Option<Call<L>>)
      requires Valid(Value()) && at.AwaitReload?
      modifies this
      ensures Valid(Value()) && Turn(Value(), call) == OnReloaded(old(Value()), layout, remote)
    {
      revision := remote;
      latest := Some(layout);
      call := Leave();
    }

    /** `finally`: drop the flag and run again when a submit asked for it. */
    method Leave() returns (call: Option<Call<L>>)
      requires Valid(Value()) && inflight
      modifies this
      ensures Valid(Value()) && Turn(Value(), call) == Finish(old(Value()))
    {
      inflight := false;
      at := NotRunning;
      call := None;
      if rerun && latest.Some? {
        call := Run();
      }
    }
  }
}
