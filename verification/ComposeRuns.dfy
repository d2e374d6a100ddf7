/** Every interleaving of compose edits on one `ComposeService`, under its project locks. */
module ComposeRuns {
  import opened Text
  import opened ComposeOps
  import opened ComposeFile
  import L = ProjectLock

  /** Call `k` of the lock runs `jobs[k]` and stands at `locals[k]`. */
  datatype System = System(lock: L.Lock, jobs: seq<Job>, locals: seq<Local>, files: map<string, Files>)

  datatype Event = Arrives(project: string, job: Job) | Enters(k: nat) | Works(k: nat) | Leaves(k: nat)

  const NOTHING := Files(None, None, None)

  function FilesOf(files: map<string, Files>, id: string): Files {
    if id in files then files[id] else NOTHING
  }

  predicate Fits(s: System) {
    |s.jobs| == |s.locals| == |s.lock.calls|
  }

  predicate Enabled(s: System, e: Event) {
    Fits(s) &&
    match e
    case Arrives(_, _) => true
    case Enters(k) => L.CanEnter(s.lock, k)
    case Works(k) => L.CanLeave(s.lock, k) && !s.locals[k].pc.Done?
    case Leaves(k) => L.CanLeave(s.lock, k) && s.locals[k].pc.Done?
  }

  function Step(s: System, e: Event): System
    requires Enabled(s, e)
  {
    match e
    case Arrives(id, job) => System(L.Arrive(s.lock, id), s.jobs + [job], s.locals + [FRESH], s.files)
    case Enters(k) => s.(lock := L.Enter(s.lock, k))
    case Works(k) =>
      var id := s.lock.calls[k].project;
      var (l, f) := Work(s.jobs[k], s.locals[k], FilesOf(s.files, id));
      s.(locals := s.locals[k := l], files := s.files[id := f])
    case Leaves(k) => s.(lock := L.Leave(s.lock, k))
  }

  predicate CanRun(s: System, events: seq<Event>)
    decreases |events|
  {
    events != [] ==> Enabled(s, events[0]) && CanRun(Step(s, events[0]), events[1..])
  }

  function Run(s: System, events: seq<Event>): System
    requires CanRun(s, events)
    decreases |events|
  {
    if events == [] then s else Run(Step(s, events[0]), events[1..])
  }

  function Init(files: map<string, Files>): System {
    System(L.FREE, [], [], files)
  }

  /** The finished jobs on a project in lock order, among the first `n` calls. */
  function Served(calls: seq<L.Call>, jobs: seq<Job>, id: string, n: nat): seq<Job>
    requires n <= |calls| == |jobs|
  {
    if n == 0 then []
    else if calls[n - 1].project == id && calls[n - 1].phase == L.Finished then
      Served(calls, jobs, id, n - 1) + [jobs[n - 1]]
    else Served(calls, jobs, id, n - 1)
  }

  function Committed(s: System, start: map<string, Files>, id: string): Option<File>
    requires Fits(s)
  {
    Sequential(Served(s.lock.calls, s.jobs, id, |s.jobs|), FilesOf(start, id).compose)
  }

  predicate Holds(s: System, k: nat, id: string) {
    k < |s.lock.calls| && s.lock.calls[k].project == id && s.lock.calls[k].phase == L.Holding
  }

  /** With no holder the file is the sequential result; otherwise the holder's remaining steps lead
      to the sequential result with its own job added. */
  ghost predicate FileInv(s: System, start: map<string, Files>, id: string)
    requires Fits(s)
  {
    && ((forall k: nat :: !Holds(s, k, id)) ==> FilesOf(s.files, id).compose == Committed(s, start, id))
    && (forall k: nat :: Holds(s, k, id) ==> OnTrack(s.jobs[k], s.locals[k], FilesOf(s.files, id), Committed(s, start, id)))
  }

  ghost predicate OnTrack(job: Job, l: Local, f: Files, committed: Option<File>) {
    && Finish(job, l, f).1.compose == Effect(job, committed)
    && Finish(job, l, f).0.pc == Done(Succeeds(job, committed))
    && Kept(job, l, f)
  }

  /** The points an operation can stand at. */
  predicate Suits(op: Op, pc: Pc) {
    match pc
    case Stage => op.UpdateYaml? || op.RecreatePinned?
    case Check => op.UpdateYaml? || op.RemoveService?
    case Start => !op.UpdateYaml?
    case Restore => op.RemoveService? || op.RecreatePinned?
    case Clean => op.UpdateYaml? || op.RecreatePinned?
    case Down => op.RemoveService?
    case Delete => op.RemoveService?
    case _ => true
  }

  /** What the temporary files hold while their owner needs them. */
  predicate Kept(job: Job, l: Local, f: Files) {
    && Suits(job.op, l.pc)
    && (job.op.UpdateYaml? && (l.pc == Check || l.pc == Commit || l.pc == Clean) ==> f.tmp == Some(job.op.content))
    && (job.op.RecreatePinned? && (l.pc == Commit || l.pc == Start || l.pc == Restore || l.pc == Clean) ==>
          f.bak == Some(l.original))
  }

  ghost predicate Inv(s: System, start: map<string, Files>) {
    && Fits(s) && L.Valid(s.lock)
    && (forall k :: 0 <= k < |s.jobs| && s.lock.calls[k].phase == L.Waiting ==> s.locals[k] == FRESH)
    && (forall id :: FileInv(s, start, id))
  }

  /** A finished call's report is the one it would give at its place in the lock order. */
  ghost predicate Reported(s: System, start: map<string, Files>, k: nat)
    requires Fits(s) && k < |s.jobs|
  {
    s.lock.calls[k].phase == L.Finished ==>
      var id := s.lock.calls[k].project;
      s.locals[k].pc == Done(Succeeds(s.jobs[k], Before(s, start, id, k)))
  }

  /** The compose file that the calls on a project before call `k` leave. */
  function Before(s: System, start: map<string, Files>, id: string, k: nat): Option<File>
    requires Fits(s) && k <= |s.jobs|
  {
    Sequential(Served(s.lock.calls, s.jobs, id, k), FilesOf(start, id).compose)
  }

  ghost predicate Reports(s: System, start: map<string, Files>)
    requires Fits(s)
  {
    forall k :: 0 <= k < |s.jobs| ==> Reported(s, start, k)
  }

  lemma {:induction false} ServedDependsOn(calls: seq<L.Call>, jobs: seq<Job>, calls': seq<L.Call>, jobs': seq<Job>,
                                           id: string, n: nat)
    requires n <= |calls| == |jobs| && n <= |calls'| == |jobs'|
    requires forall k :: 0 <= k < n ==>
               && jobs[k] == jobs'[k] && calls[k].project == calls'[k].project
               && (calls[k].project == id ==> (calls[k].phase == L.Finished <==> calls'[k].phase == L.Finished))
    ensures Served(calls, jobs, id, n) == Served(calls', jobs', id, n)
  {
    if n > 0 {
      ServedDependsOn(calls, jobs, calls', jobs', id, n - 1);
    }
  }

  /** Calls after the last finished one on a project add nothing. */
  lemma {:induction false} ServedStops(calls: seq<L.Call>, jobs: seq<Job>, id: string, m: nat, n: nat)
    requires m <= n <= |calls| == |jobs|
    requires forall k :: m <= k < n && calls[k].project == id ==> calls[k].phase != L.Finished
    ensures Served(calls, jobs, id, n) == Served(calls, jobs, id, m)
  {
    if m < n {
      ServedStops(calls, jobs, id, m, n - 1);
    }
  }

  /** A leaving holder's job comes last in its project's order. */
  lemma LeaveServes(s: System, k: nat)
    requires Fits(s) && L.Valid(s.lock) && L.CanLeave(s.lock, k)
    ensures var id := s.lock.calls[k].project;
            Served(L.Leave(s.lock, k).calls, s.jobs, id, |s.jobs|)
            == Served(s.lock.calls, s.jobs, id, |s.jobs|) + [s.jobs[k]]
  {
    var id := s.lock.calls[k].project;
    var calls := L.Leave(s.lock, k).calls;
    ServedStops(s.lock.calls, s.jobs, id, k, |s.jobs|);
    ServedStops(calls, s.jobs, id, k + 1, |s.jobs|);
    ServedDependsOn(s.lock.calls, s.jobs, calls, s.jobs, id, k);
  }

  lemma ArrivesOne(s: System, start: map<string, Files>, id: string, job: Job, other: string)
    requires Fits(s) && FileInv(s, start, other)
    ensures Fits(Step(s, Arrives(id, job))) && FileInv(Step(s, Arrives(id, job)), start, other)
  {
    hide OnTrack, Effect, Sequential;
    var t := Step(s, Arrives(id, job));
    ServedDependsOn(s.lock.calls, s.jobs, t.lock.calls, t.jobs, other, |s.jobs|);
    ServedStops(t.lock.calls, t.jobs, other, |s.jobs|, |t.jobs|);
    assert Committed(t, start, other) == Committed(s, start, other);
    assert forall k: nat :: Holds(t, k, other) <==> Holds(s, k, other);
    forall k: nat | Holds(t, k, other)
      ensures OnTrack(t.jobs[k], t.locals[k], FilesOf(t.files, other), Committed(t, start, other))
    {
      assert Holds(s, k, other);
    }
  }

  lemma ArrivesKeeps(s: System, start: map<string, Files>, id: string, job: Job)
    requires Inv(s, start)
    ensures Inv(Step(s, Arrives(id, job)), start)
  {
    hide FileInv;
    L.ArriveKeeps(s.lock, id);
    forall other ensures FileInv(Step(s, Arrives(id, job)), start, other) {
      ArrivesOne(s, start, id, job, other);
    }
  }

  /** A step that leaves a project's calls and files alone keeps its invariant. */
  lemma Frame(s: System, t: System, start: map<string, Files>, id: string)
    requires Fits(s) && Fits(t) && t.jobs == s.jobs && FileInv(s, start, id)
    requires FilesOf(t.files, id) == FilesOf(s.files, id)
    requires forall k :: 0 <= k < |s.jobs| ==>
               && t.lock.calls[k].project == s.lock.calls[k].project
               && (s.lock.calls[k].project == id ==>
                     t.lock.calls[k].phase == s.lock.calls[k].phase && t.locals[k] == s.locals[k])
    ensures FileInv(t, start, id)
  {
    hide OnTrack, Effect, Sequential;
    ServedDependsOn(s.lock.calls, s.jobs, t.lock.calls, t.jobs, id, |s.jobs|);
    assert Committed(t, start, id) == Committed(s, start, id);
    assert forall k: nat :: Holds(t, k, id) <==> Holds(s, k, id);
    forall k: nat | Holds(t, k, id)
      ensures OnTrack(t.jobs[k], t.locals[k], FilesOf(t.files, id), Committed(t, start, id))
    {
      assert Holds(s, k, id);
    }
  }

  lemma EntersOwn(s: System, start: map<string, Files>, k: nat)
    requires Inv(s, start) && Enabled(s, Enters(k))
    ensures Fits(Step(s, Enters(k))) && FileInv(Step(s, Enters(k)), start, s.lock.calls[k].project)
  {
    hide OnTrack, Effect;
    var t := Step(s, Enters(k));
    var id := s.lock.calls[k].project;
    L.CanEnterMeansFirst(s.lock, k);
    ServedDependsOn(s.lock.calls, s.jobs, t.lock.calls, t.jobs, id, |s.jobs|);
    assert FileInv(s, start, id);
    assert forall j: nat :: !Holds(s, j, id);
    assert forall j: nat :: Holds(t, j, id) ==> j == k;
    FreshCommits(s.jobs[k], FilesOf(s.files, id));
  }

  lemma EntersKeeps(s: System, start: map<string, Files>, k: nat)
    requires Inv(s, start) && Enabled(s, Enters(k))
    ensures Inv(Step(s, Enters(k)), start)
  {
    hide FileInv;
    var t := Step(s, Enters(k));
    L.EnterKeeps(s.lock, k);
    EntersOwn(s, start, k);
    forall id ensures FileInv(t, start, id) {
      assert FileInv(s, start, id);
      if id != s.lock.calls[k].project {
        Frame(s, t, start, id);
      }
    }
  }

  lemma FreshCommits(job: Job, f: Files)
    ensures OnTrack(job, FRESH, f, f.compose)
  {
    hide Finish, Effect;
    FinishIsEffect(job, f);
  }

  lemma WorkKeepsOwn(job: Job, l: Local, f: Files, committed: Option<File>)
    requires !l.pc.Done? && OnTrack(job, l, f, committed)
    ensures var (l', f') := Work(job, l, f); OnTrack(job, l', f', committed)
  {
    hide Edited, RemovesLast, Effect;
  }

  lemma WorksOwn(s: System, start: map<string, Files>, k: nat)
    requires Inv(s, start) && Enabled(s, Works(k))
    ensures Fits(Step(s, Works(k))) && FileInv(Step(s, Works(k)), start, s.lock.calls[k].project)
  {
    hide OnTrack, Effect, Work, Sequential;
    var t := Step(s, Works(k));
    var id := s.lock.calls[k].project;
    assert FileInv(s, start, id) && Holds(s, k, id);
    WorkKeepsOwn(s.jobs[k], s.locals[k], FilesOf(s.files, id), Committed(s, start, id));
    assert Committed(t, start, id) == Committed(s, start, id);
    assert Holds(t, k, id) && forall j: nat :: Holds(t, j, id) ==> j == k;
  }

  lemma WorksKeeps(s: System, start: map<string, Files>, k: nat)
    requires Inv(s, start) && Enabled(s, Works(k))
    ensures Inv(Step(s, Works(k)), start)
  {
    hide FileInv, Work;
    var t := Step(s, Works(k));
    WorksOwn(s, start, k);
    forall id ensures FileInv(t, start, id) {
      assert FileInv(s, start, id);
      if id != s.lock.calls[k].project {
        Frame(s, t, start, id);
      }
    }
  }

  lemma LeavesOwn(s: System, start: map<string, Files>, k: nat)
    requires Inv(s, start) && Enabled(s, Leaves(k))
    ensures Fits(Step(s, Leaves(k))) && FileInv(Step(s, Leaves(k)), start, s.lock.calls[k].project)
  {
    hide OnTrack, Effect, Sequential;
    var t := Step(s, Leaves(k));
    var id := s.lock.calls[k].project;
    assert FileInv(s, start, id) && Holds(s, k, id);
    DoneIsFinished(s.jobs[k], s.locals[k], FilesOf(s.files, id), Committed(s, start, id));
    LeaveServes(s, k);
    SequentialSnoc(Served(s.lock.calls, s.jobs, id, |s.jobs|), s.jobs[k], FilesOf(start, id).compose);
    assert forall j: nat :: !Holds(t, j, id);
  }

  lemma LeavesKeeps(s: System, start: map<string, Files>, k: nat)
    requires Inv(s, start) && Enabled(s, Leaves(k))
    ensures Inv(Step(s, Leaves(k)), start)
  {
    hide FileInv;
    var t := Step(s, Leaves(k));
    L.LeaveKeeps(s.lock, k);
    LeavesOwn(s, start, k);
    forall id ensures FileInv(t, start, id) {
      assert FileInv(s, start, id);
      if id != s.lock.calls[k].project {
        Frame(s, t, start, id);
      }
    }
  }

  lemma SequentialSnoc(jobs: seq<Job>, job: Job, start: Option<File>)
    ensures Sequential(jobs + [job], start) == Effect(job, Sequential(jobs, start))
  {
    hide Effect;
    assert (jobs + [job])[..|jobs|] == jobs;
  }

  lemma DoneIsFinished(job: Job, l: Local, f: Files, committed: Option<File>)
    requires l.pc.Done? && OnTrack(job, l, f, committed)
    ensures f.compose == Effect(job, committed)
    ensures l.pc == Done(Succeeds(job, committed))
  {
    hide Effect, Succeeds;
  }

  /** A step that touches no earlier call on the project and not this one keeps its report. */
  lemma ReportStays(s: System, t: System, start: map<string, Files>, k: nat)
    requires Fits(s) && Fits(t) && k < |s.jobs| <= |t.jobs| && Reported(s, start, k)
    requires t.lock.calls[k] == s.lock.calls[k] && t.locals[k] == s.locals[k]
    requires forall i :: 0 <= i <= k ==>
               && s.jobs[i] == t.jobs[i] && s.lock.calls[i].project == t.lock.calls[i].project
               && (s.lock.calls[i].project == s.lock.calls[k].project ==>
                     (s.lock.calls[i].phase == L.Finished <==> t.lock.calls[i].phase == L.Finished))
    ensures Reported(t, start, k)
  {
    hide Sequential, Succeeds;
    ServedDependsOn(s.lock.calls, s.jobs, t.lock.calls, t.jobs, s.lock.calls[k].project, k);
  }

  /** The report of the call that leaves. */
  lemma LeaverReports(s: System, start: map<string, Files>, k: nat)
    requires Inv(s, start) && Enabled(s, Leaves(k))
    ensures Fits(Step(s, Leaves(k))) && Reported(Step(s, Leaves(k)), start, k)
  {
    hide OnTrack, Effect, Sequential, Succeeds;
    var t := Step(s, Leaves(k));
    var id := s.lock.calls[k].project;
    assert FileInv(s, start, id) && Holds(s, k, id);
    DoneIsFinished(s.jobs[k], s.locals[k], FilesOf(s.files, id), Committed(s, start, id));
    ServedStops(s.lock.calls, s.jobs, id, k, |s.jobs|);
    ServedDependsOn(s.lock.calls, s.jobs, t.lock.calls, t.jobs, id, k);
  }

  lemma LeavesKeepReports(s: System, start: map<string, Files>, k: nat)
    requires Inv(s, start) && Reports(s, start) && Enabled(s, Leaves(k))
    ensures Fits(Step(s, Leaves(k))) && Reports(Step(s, Leaves(k)), start)
  {
    hide FileInv, Reported;
    var t := Step(s, Leaves(k));
    forall i | 0 <= i < |t.jobs| ensures Reported(t, start, i) {
      if i == k {
        LeaverReports(s, start, k);
      } else if s.lock.calls[i].phase == L.Finished {
        ReportStays(s, t, start, i);
      } else {
        NotFinished(t, start, i);
      }
    }
  }

  lemma NotFinished(s: System, start: map<string, Files>, k: nat)
    requires Fits(s) && k < |s.jobs| && s.lock.calls[k].phase != L.Finished
    ensures Reported(s, start, k)
  {
  }

  lemma StepKeepsReports(s: System, start: map<string, Files>, e: Event)
    requires Inv(s, start) && Reports(s, start) && Enabled(s, e)
    ensures Fits(Step(s, e)) && Reports(Step(s, e), start)
  {
    if e.Leaves? {
      LeavesKeepReports(s, start, e.k);
    } else {
      hide FileInv, Reported, Work;
      var t := Step(s, e);
      forall i | 0 <= i < |t.jobs| ensures Reported(t, start, i) {
        if t.lock.calls[i].phase == L.Finished {
          ReportStays(s, t, start, i);
        } else {
          NotFinished(t, start, i);
        }
      }
    }
  }

  lemma StepKeeps(s: System, e: Event, start: map<string, Files>)
    requires Inv(s, start) && Enabled(s, e)
    ensures Inv(Step(s, e), start)
  {
    hide Inv, Step;
    match e {
      case Arrives(id, job) => ArrivesKeeps(s, start, id, job);
      case Enters(k) => EntersKeeps(s, start, k);
      case Works(k) => WorksKeeps(s, start, k);
      case Leaves(k) => LeavesKeeps(s, start, k);
    }
  }

  lemma {:induction false} RunKeeps(s: System, events: seq<Event>, start: map<string, Files>)
    requires Inv(s, start) && Reports(s, start) && CanRun(s, events)
    ensures Inv(Run(s, events), start) && Reports(Run(s, events), start)
    decreases |events|
  {
    hide FileInv, Reports, Step;
    if events != [] {
      StepKeepsReports(s, start, events[0]);
      StepKeeps(s, events[0], start);
      RunKeeps(Step(s, events[0]), events[1..], start);
    }
  }

  /** Whatever the interleaving and whichever foreign calls fail, once nobody holds a project its
      compose file is what its finished operations leave when run one by one in lock order. */
  lemma Serializable(start: map<string, Files>, events: seq<Event>, id: string)
    requires CanRun(Init(start), events)
    requires forall k: nat :: !Holds(Run(Init(start), events), k, id)
    ensures var s := Run(Init(start), events);
            Fits(s) &&
            FilesOf(s.files, id).compose
            == Sequential(Served(s.lock.calls, s.jobs, id, |s.jobs|), FilesOf(start, id).compose)
  {
    RunKeeps(Init(start), events, start);
    var s := Run(Init(start), events);
    assert FileInv(s, start, id);
  }

  /** At any moment of a run, each finished call has reported what it reports at its place in lock order. */
  lemma ReportsAreSequential(start: map<string, Files>, events: seq<Event>, k: nat)
    requires CanRun(Init(start), events)
    requires var s := Run(Init(start), events);
             Fits(s) && k < |s.jobs| && s.lock.calls[k].phase == L.Finished
    ensures var s := Run(Init(start), events);
            var id := s.lock.calls[k].project;
            s.locals[k].pc
            == Done(Succeeds(s.jobs[k], Sequential(Served(s.lock.calls, s.jobs, id, k), FilesOf(start, id).compose)))
  {
    RunKeeps(Init(start), events, start);
    assert Reported(Run(Init(start), events), start, k);
  }

  /** While a recreate has the pinned file in place its backup is the original, and an update writes
      exactly the content that was checked. */
  lemma TemporaryFilesAreOwn(start: map<string, Files>, events: seq<Event>, id: string, k: nat)
    requires CanRun(Init(start), events) && Holds(Run(Init(start), events), k, id)
    ensures var s := Run(Init(start), events);
            Fits(s) && Kept(s.jobs[k], s.locals[k], FilesOf(s.files, id))
  {
    RunKeeps(Init(start), events, start);
    var s := Run(Init(start), events);
    assert FileInv(s, start, id);
  }

  // ---- At most one of the updates on one base

  predicate IsUpdateOn(job: Job, base: File) {
    job.op.UpdateYaml? && job.op.base == Some(base) && job.op.content != base
  }

  /** Where a finished call's job stands in the lock order. */
  lemma {:induction false} ServedAt(calls: seq<L.Call>, jobs: seq<Job>, id: string, k: nat, n: nat)
    requires k < n <= |calls| == |jobs| && calls[k].project == id && calls[k].phase == L.Finished
    ensures var all, place := Served(calls, jobs, id, n), |Served(calls, jobs, id, k)|;
            place < |all| && all[place] == jobs[k] && all[..place] == Served(calls, jobs, id, k)
  {
    if k + 1 < n {
      ServedAt(calls, jobs, id, k, n - 1);
    }
  }

  lemma {:induction false} ServedKeepAway(calls: seq<L.Call>, jobs: seq<Job>, id: string, n: nat, base: File)
    requires n <= |calls| == |jobs|
    requires forall k :: 0 <= k < n && calls[k].project == id && calls[k].phase == L.Finished ==> KeepsAway(jobs[k], base)
    ensures forall i :: 0 <= i < |Served(calls, jobs, id, n)| ==> KeepsAway(Served(calls, jobs, id, n)[i], base)
  {
    hide KeepsAway;
    if n > 0 {
      ServedKeepAway(calls, jobs, id, n - 1, base);
    }
  }

  /** A reported update found its base and replaced it. */
  lemma ReportedUpdateWrote(jobs: seq<Job>, start: Option<File>, i: nat, base: File)
    requires i < |jobs| && IsUpdateOn(jobs[i], base) && Succeeds(jobs[i], Sequential(jobs[..i], start))
    ensures Wrote(jobs, start, i, base)
  {
    SequentialStep(jobs, start, i);
  }

  /** In any run, of the updates of one project on one base at most one reports success, unless some
      finished call on that project may put the base back. */
  lemma OneUpdatePerBase(start: map<string, Files>, events: seq<Event>, id: string, base: File, j: nat, k: nat)
    requires CanRun(Init(start), events)
    requires var s := Run(Init(start), events);
             && Fits(s)
             && (forall m :: 0 <= m < |s.jobs| && s.lock.calls[m].project == id && s.lock.calls[m].phase == L.Finished ==>
                   KeepsAway(s.jobs[m], base))
             && (forall m <- [j, k] ::
                   && m < |s.jobs| && s.lock.calls[m].project == id && s.lock.calls[m].phase == L.Finished
                   && IsUpdateOn(s.jobs[m], base) && s.locals[m].pc == Done(true))
    ensures j == k
  {
    var s := Run(Init(start), events);
    assert j in [j, k] && k in [j, k];
    hide KeepsAway, Run, IsUpdateOn, Succeeds, Sequential, Wrote;
    var calls, all, first := s.lock.calls, Served(s.lock.calls, s.jobs, id, |s.jobs|), FilesOf(start, id).compose;
    ServedKeepAway(calls, s.jobs, id, |s.jobs|, base);
    forall m | m in [j, k]
      ensures |Served(calls, s.jobs, id, m)| < |all| && Wrote(all, first, |Served(calls, s.jobs, id, m)|, base)
    {
      ReportsAreSequential(start, events, m);
      ServedAt(calls, s.jobs, id, m, |s.jobs|);
      ReportedUpdateWrote(all, first, |Served(calls, s.jobs, id, m)|, base);
    }
    OneWritePerBase(all, first, |Served(calls, s.jobs, id, j)|, |Served(calls, s.jobs, id, k)|, base);
    if j < k {
      ServedAt(calls, s.jobs, id, j, k);
    } else if k < j {
      ServedAt(calls, s.jobs, id, k, j);
    }
  }
}
