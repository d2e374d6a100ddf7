/** The multi-step edits of one project's compose file, step by step and as one step. */
module ComposeOps {
  import opened Text
  import opened ComposeFile

  datatype Op =
    | UpdateYaml(content: File, base: Option<File>)
    | AddService(name: string, image: string, ports: seq<string>, start: bool)
    | RemoveService(name: string)
    | RecreatePinned(service: string, image: string)

  /** How the foreign calls of one operation turn out: finding the project, writing the temporary file,
      the CLI check or removal, writing the compose file, starting services, deleting the folder, reading
      the project's details at the end. */
  datatype Luck = Luck(
    resolves: bool,
    stages: bool,
    checks: bool,
    commits: bool,
    runs: bool,
    deletes: bool,
    details: bool)

  const ALL := Luck(true, true, true, true, true, true, true)

  datatype Job = Job(op: Op, luck: Luck)

  datatype Files = Files(compose: Option<File>, tmp: Option<File>, bak: Option<File>)

  datatype Pc = Resolve | Inspect | Stage | Check | Commit | Start | Restore | Clean | Down | Delete | Done(ok: bool)

  datatype Local = Local(pc: Pc, original: File)

  const FRESH := Local(Resolve, EMPTY)

  /** `recreatePinned` accepts the names of this form. */
  predicate PinName(s: string) {
    s != "" && (IsLetter(s[0]) || IsDigit(s[0])) && forall i :: 0 <= i < |s| ==> ServiceNameChar(s[i])
  }

  /** The file an operation wants to write, given the one it read. */
  function Edited(op: Op, original: File): Result<File> {
    match op
    case UpdateYaml(content, base) => if base.Some? && base.value != original then Invalid else Ok(content)
    case AddService(name, image, ports, _) => Add(original, name, image, ports)
    case RemoveService(name) => Remove(original, name)
    case RecreatePinned(service, image) =>
      if PinName(Trim(service)) && Trim(image) != "" then Pin(original, Trim(service), Trim(image)) else Invalid
  }

  /** Removing this service leaves none, so the whole project goes. */
  predicate RemovesLast(op: Op, original: File) {
    op.RemoveService? && Edited(op, original).Ok? && forall e <- Others(original, Trim(op.name)) :: e.name == ""
  }

  // ---- One atomic step between two awaits

  function Work(job: Job, l: Local, f: Files): (r: (Local, Files))
    requires !l.pc.Done?
    ensures Rank(r.0.pc) < Rank(l.pc)
  {
    hide Edited, RemovesLast;
    var op, luck := job.op, job.luck;
    var fail := l.(pc := Done(false));
    match l.pc
    case Resolve =>
      if f.compose.Some? && luck.resolves then (l.(pc := Inspect), f) else (fail, f)
    case Inspect =>
      if f.compose.None? || Edited(op, f.compose.value).Invalid? then (fail, f)
      else
        var next := if op.UpdateYaml? || op.RecreatePinned? then Stage
                    else if op.AddService? then Commit
                    else if RemovesLast(op, f.compose.value) then Down
                    else Check;
        (Local(next, f.compose.value), f)
    case Stage =>
      if !luck.stages then (fail, f)
      else if op.UpdateYaml? then (l.(pc := Check), f.(tmp := Some(op.content)))
      else (l.(pc := Commit), f.(bak := Some(l.original)))
    case Check =>
      if luck.checks then (l.(pc := Commit), f)
      else (fail, if op.UpdateYaml? then f.(tmp := None) else f)
    case Commit =>
      if !luck.commits || Edited(op, l.original).Invalid? then (fail, f)
      else (l.(pc := if op.UpdateYaml? then Clean else Start), f.(compose := Some(Edited(op, l.original).value)))
    case Start =>
      if op.AddService? then (l.(pc := Done((!op.start || luck.runs) && luck.details)), f)
      else if op.RemoveService? && luck.runs then (l.(pc := Done(true)), f)
      else (l.(pc := Restore), f)
    case Restore =>
      (if op.RecreatePinned? then l.(pc := Clean) else fail, f.(compose := Some(l.original)))
    case Clean =>
      if op.UpdateYaml? then (l.(pc := Done(luck.details)), f.(tmp := None))
      else (l.(pc := Done(luck.runs)), f.(bak := None))
    case Down => (if luck.checks then l.(pc := Delete) else fail, f)
    case Delete => if luck.deletes then (l.(pc := Done(true)), Files(None, None, None)) else (fail, f)
  }

  function Rank(pc: Pc): nat {
    match pc
    case Resolve => 9
    case Inspect => 8
    case Stage => 7
    case Check => 6
    case Commit => 5
    case Start => 4
    case Restore => 3
    case Clean => 2
    case Down => 2
    case Delete => 1
    case Done(_) => 0
  }

  /** The rest of an operation when nobody interferes. */
  function Finish(job: Job, l: Local, f: Files): (Local, Files)
    decreases Rank(l.pc)
  {
    if l.pc.Done? then (l, f)
    else
      var (l', f') := Work(job, l, f);
      Finish(job, l', f')
  }

  // ---- The operation as one step

  /** The compose file an operation leaves when it runs alone. */
  function Effect(job: Job, file: Option<File>): Option<File> {
    if file.None? || !job.luck.resolves || Edited(job.op, file.value).Invalid? then file
    else
      var luck := job.luck;
      var edited := Some(Edited(job.op, file.value).value);
      match job.op
      case UpdateYaml(_, _) => if luck.stages && luck.checks && luck.commits then edited else file
      case AddService(_, _, _, _) => if luck.commits then edited else file
      case RemoveService(_) =>
        if RemovesLast(job.op, file.value) then if luck.checks && luck.deletes then None else file
        else if luck.checks && luck.commits && luck.runs then edited
        else file
      case RecreatePinned(_, _) => file
  }

  /** Whether an operation that runs alone reports success. */
  predicate Succeeds(job: Job, file: Option<File>) {
    && file.Some? && job.luck.resolves && Edited(job.op, file.value).Ok?
    && var luck := job.luck;
       match job.op
       case UpdateYaml(_, _) => luck.stages && luck.checks && luck.commits && luck.details
       case AddService(_, _, _, start) => luck.commits && (!start || luck.runs) && luck.details
       case RemoveService(_) =>
         luck.checks && if RemovesLast(job.op, file.value) then luck.deletes else luck.commits && luck.runs
       case RecreatePinned(_, _) => luck.stages && luck.commits && luck.runs
  }

  /** Uninterrupted, the steps of an operation amount to its effect and its report. */
  lemma FinishIsEffect(job: Job, f: Files)
    ensures Finish(job, FRESH, f).1.compose == Effect(job, f.compose)
    ensures Finish(job, FRESH, f).0.pc == Done(Succeeds(job, f.compose))
  {
    hide Edited, RemovesLast, Finish;
    FinishSteps(job, FRESH, f);
    if f.compose.Some? && job.luck.resolves {
      var l1 := FRESH.(pc := Inspect);
      FinishSteps(job, l1, f);
      var (l2, f2) := Work(job, l1, f);
      if l2.pc == Stage {
        FinishFromStage(job, l2, f2);
      } else if l2.pc == Commit {
        FinishFromCommit(job, l2, f2);
      } else if l2.pc == Check {
        FinishSteps(job, l2, f2);
        if job.luck.checks {
          FinishFromCommit(job, l2.(pc := Commit), f2);
        }
      } else if l2.pc == Down {
        FinishSteps(job, l2, f2);
        if job.luck.checks {
          FinishSteps(job, l2.(pc := Delete), f2);
        }
      }
    }
  }

  /** One step of `Finish`, and its end when that step was the last. */
  lemma FinishSteps(job: Job, l: Local, f: Files)
    requires !l.pc.Done?
    ensures var (l', f') := Work(job, l, f);
      Finish(job, l, f) == if l'.pc.Done? then (l', f') else Finish(job, l', f')
  {
    hide Work;
    var (l', f') := Work(job, l, f);
    if l'.pc.Done? {
      assert Finish(job, l', f') == (l', f');
    }
  }

  lemma FinishFromStage(job: Job, l: Local, f: Files)
    requires l.pc == Stage && f.compose == Some(l.original) && Edited(job.op, l.original).Ok?
    requires job.op.UpdateYaml? || job.op.RecreatePinned?
    ensures Finish(job, l, f).1.compose == Effect(job.(luck := job.luck.(resolves := true)), f.compose)
    ensures Finish(job, l, f).0.pc == Done(Succeeds(job.(luck := job.luck.(resolves := true)), f.compose))
  {
    hide Edited, RemovesLast, Finish;
    FinishSteps(job, l, f);
    if job.luck.stages {
      var (l', f') := Work(job, l, f);
      if job.op.RecreatePinned? {
        FinishFromCommit(job, l', f');
      } else {
        FinishSteps(job, l', f');
        var (l'', f'') := Work(job, l', f');
        if job.luck.checks {
          FinishFromCommit(job, l'', f'');
        }
      }
    }
  }

  lemma FinishFromCommit(job: Job, l: Local, f: Files)
    requires l.pc == Commit && f.compose == Some(l.original) && Edited(job.op, l.original).Ok?
    ensures Finish(job, l, f).1.compose
            == if job.luck.commits && (job.op.UpdateYaml? || job.op.AddService? || (job.op.RemoveService? && job.luck.runs))
               then Some(Edited(job.op, l.original).value) else f.compose
    ensures Finish(job, l, f).0.pc
            == Done(job.luck.commits
                    && (job.op.UpdateYaml? || (job.op.AddService? && !job.op.start) || job.luck.runs)
                    && (job.op.UpdateYaml? || job.op.AddService? ==> job.luck.details))
  {
    hide Edited, RemovesLast, Finish;
    FinishSteps(job, l, f);
    if job.luck.commits {
      var (l', f') := Work(job, l, f);
      FinishSteps(job, l', f');
      if l'.pc == Start {
        var (l'', f'') := Work(job, l', f');
        if l''.pc == Restore {
          FinishSteps(job, l'', f'');
          var (l3, f3) := Work(job, l'', f'');
          if l3.pc == Clean {
            FinishSteps(job, l3, f3);
          }
        }
      }
    }
  }

  /** A pinned recreate, and a removal that does not report success, leave the compose file as it was. */
  lemma PinAndFailedRemoveChangeNothing(job: Job, f: Files)
    requires job.op.RecreatePinned? || (job.op.RemoveService? && Finish(job, FRESH, f).0.pc == Done(false))
    ensures Finish(job, FRESH, f).1.compose == f.compose
  {
    hide Edited, RemovesLast;
    FinishIsEffect(job, f);
  }

  /** An added service stays in the file even when the operation fails because it does not start. */
  lemma FailedStartKeepsTheService(job: Job, f: Files)
    requires job.op.AddService? && f.compose.Some? && job.luck.resolves && job.luck.commits
    requires Edited(job.op, f.compose.value).Ok? && job.op.start && !job.luck.runs
    ensures Finish(job, FRESH, f).0.pc == Done(false)
    ensures Finish(job, FRESH, f).1.compose == Some(Edited(job.op, f.compose.value).value)
  {
    hide Edited, RemovesLast;
    FinishIsEffect(job, f);
  }

  /** An update or an addition that reports an error has replaced the file all the same exactly when only what comes
      after the write failed: the start, or the reading of the details. */
  lemma ErrorAfterTheWriteIff(job: Job, f: Files)
    requires job.op.UpdateYaml? || job.op.AddService?
    requires f.compose.Some? && Edited(job.op, f.compose.value).Ok? && Edited(job.op, f.compose.value).value != f.compose.value
    requires Finish(job, FRESH, f).0.pc == Done(false)
    ensures Finish(job, FRESH, f).1.compose != f.compose
       <==> && job.luck.resolves && job.luck.commits
            && (job.op.UpdateYaml? ==> job.luck.stages && job.luck.checks)
            && (!job.luck.details || (job.op.AddService? && job.op.start && !job.luck.runs))
  {
    hide Edited, RemovesLast, Finish;
    FinishIsEffect(job, f);
  }

  // ---- What running the operations one by one leaves

  function Sequential(jobs: seq<Job>, start: Option<File>): Option<File> {
    if jobs == [] then start else Effect(jobs[|jobs| - 1], Sequential(jobs[..|jobs| - 1], start))
  }

  lemma SequentialStep(jobs: seq<Job>, start: Option<File>, i: nat)
    requires i < |jobs|
    ensures Sequential(jobs[..i + 1], start) == Effect(jobs[i], Sequential(jobs[..i], start))
  {
    assert jobs[..i + 1][..i] == jobs[..i];
  }

  /** The `i`th job found the file equal to its base and replaced it. */
  predicate Wrote(jobs: seq<Job>, start: Option<File>, i: nat, base: File)
    requires i < |jobs|
  {
    && jobs[i].op.UpdateYaml? && jobs[i].op.base == Some(base) && jobs[i].op.content != base
    && Sequential(jobs[..i + 1], start) == Some(jobs[i].op.content)
    && Sequential(jobs[..i], start) == Some(base)
  }

  /** Between two updates written on one base, some other call put the base content back. */
  lemma RestoringCall(jobs: seq<Job>, start: Option<File>, i: nat, j: nat, base: File) returns (m: nat)
    requires i < j < |jobs| && Wrote(jobs, start, i, base) && Wrote(jobs, start, j, base)
    ensures i < m < j
    ensures Sequential(jobs[..m], start) != Some(base) && Sequential(jobs[..m + 1], start) == Some(base)
  {
    hide Sequential;
    m := i + 1;
    while Sequential(jobs[..m + 1], start) != Some(base)
      invariant i < m < j && Sequential(jobs[..m], start) != Some(base)
      decreases j - m
    {
      m := m + 1;
    }
  }

  /** Calls that cannot put `base` back: pinned recreates, updates to another content, and calls stopped
      by a failure before they write for good. */
  predicate KeepsAway(job: Job, base: File) {
    var luck := job.luck;
    || !luck.resolves
    || match job.op
       case UpdateYaml(content, _) => content != base || !luck.stages || !luck.checks || !luck.commits
       case AddService(_, _, _, _) => !luck.commits
       case RemoveService(_) => !luck.checks || !luck.commits || !luck.runs
       case RecreatePinned(_, _) => true
  }

  lemma KeptAway(job: Job, file: Option<File>, base: File)
    requires KeepsAway(job, base) && file != Some(base)
    ensures Effect(job, file) != Some(base)
  {
    hide RemovesLast;
  }

  /** Of the updates on one base at most one is written, unless some call may put the base back. */
  lemma OneWritePerBase(jobs: seq<Job>, start: Option<File>, i: nat, j: nat, base: File)
    requires forall k :: 0 <= k < |jobs| ==> KeepsAway(jobs[k], base)
    requires i < |jobs| && j < |jobs| && Wrote(jobs, start, i, base) && Wrote(jobs, start, j, base)
    ensures i == j
  {
    if i != j {
      hide Effect, Sequential, KeepsAway;
      var m := RestoringCall(jobs, start, if i < j then i else j, if i < j then j else i, base);
      SequentialStep(jobs, start, m);
      KeptAway(jobs[m], Sequential(jobs[..m], start), base);
    }
  }

  /** When some call does restore the base, two updates on it are both written. */
  lemma RestoredBaseAllowsTwoWrites(base: File, first: File, second: File)
    requires first != base && second != base
    ensures var jobs := [Job(UpdateYaml(first, Some(base)), ALL), Job(UpdateYaml(base, None), ALL),
                         Job(UpdateYaml(second, Some(base)), ALL)];
            Wrote(jobs, Some(base), 0, base) && Wrote(jobs, Some(base), 2, base)
  {
    var jobs := [Job(UpdateYaml(first, Some(base)), ALL), Job(UpdateYaml(base, None), ALL),
                 Job(UpdateYaml(second, Some(base)), ALL)];
    assert jobs[..0] == [] && jobs[..1][..0] == [] && jobs[..2][..1] == jobs[..1] && jobs[..3][..2] == jobs[..2];
    assert Sequential(jobs[..0], Some(base)) == Some(base);
    assert Sequential(jobs[..1], Some(base)) == Some(first);
    assert Sequential(jobs[..2], Some(base)) == Some(base);
  }
}
