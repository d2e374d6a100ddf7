/** Applying an image update: pull, tag, recreate, health wait and rollback over Docker calls that may fail. */
module ApplyUpdate {
  import opened Text
  import opened ImageRef
  import opened UpdateCache
  import opened DockerHost

  // ---- Health wait

  const POLL_MS := 2000
  const TIMEOUT_MS := 90000

  function Bare(name: string): string {
    if name != "" && name[0] == '/' then name[1..] else name
  }

  /** Looks every two seconds until the container passes, is unhealthy, or the deadline is reached. */
  function Wait(w: World, f: Fortune, wanted: string, deadline: nat): Answer
    decreases deadline - w.clock
  {
    if w.clock >= deadline then Answer(false, w)
    else
      var (seen, next) := Look(w, f, wanted);
      if seen.Passing? then Answer(true, next)
      else if seen.Unhealthy? then Answer(false, next)
      else Wait(Sleep(next, POLL_MS), f, wanted, deadline)
  }

  method WaitForContainerHealthy(w: World, f: Fortune, name: string, timeoutMs: nat) returns (r: Answer, looks: nat)
    ensures r == Wait(w, f, Bare(name), w.clock + timeoutMs)
    ensures looks == 0 || (looks - 1) * POLL_MS < timeoutMs
  {
    var deadline := w.clock + timeoutMs;
    var wanted := Bare(name);
    var now := w;
    looks := 0;
    while now.clock < deadline
      invariant Wait(now, f, wanted, deadline) == Wait(w, f, wanted, deadline)
      invariant now.clock >= w.clock + looks * POLL_MS
      invariant looks == 0 || (looks - 1) * POLL_MS < timeoutMs
      decreases deadline - now.clock
    {
      looks := looks + 1;
      var (seen, next) := Look(now, f, wanted);
      now := next;
      match seen {
        case Passing => return Answer(true, now), looks;
        case Unhealthy => return Answer(false, now), looks;
        case _ =>
      }
      now := Sleep(now, POLL_MS);
    }
    r := Answer(false, now);
  }

  // ---- Recreating one container

  const ATTEMPTS := 3

  /** From attempt `k` on; only a port in use is tried again, after removing what the attempt left. */
  function Attempt(w: World, f: Fortune, name: string, image: string, k: nat): Answer
    decreases ATTEMPTS - k
  {
    if k >= ATTEMPTS then Answer(false, w)
    else
      var cleared := if k > 0 then Remove(w, f, name).world else w;
      var created := Create(cleared, f, name, image);
      if !created.ok then
        if Of(cleared, f).busy then Attempt(created.world, f, name, image, k + 1) else created
      else
        var started := Start(created.world, f, name);
        if started.ok || !Of(created.world, f).busy then started else Attempt(started.world, f, name, image, k + 1)
  }

  /** Stop (whatever comes of it), remove, then create and start. */
  function Swap(w: World, f: Fortune, name: string, image: string): Answer {
    var removed := Remove(Stop(w, f, name).world, f, name);
    if !removed.ok then removed else Attempt(removed.world, f, name, image, 0)
  }

  /** The container is inspected by its id for its name and settings. */
  function Replace(w: World, f: Fortune, id: string, image: string): Answer {
    var asked := Ask(w, f, id in w.names);
    if asked.ok then Swap(asked.world, f, w.names[id], image) else asked
  }

  method RecreateStandalone(w: World, f: Fortune, id: string, image: string) returns (r: Answer)
    ensures r == Replace(w, f, id, image)
  {
    hide Stop, Remove, Create, Start;
    r := Ask(w, f, id in w.names);
    if !r.ok {
      return;
    }
    var name := w.names[id];
    r := Stop(r.world, f, name);
    r := Remove(r.world, f, name);
    if !r.ok {
      return;
    }
    ghost var removed := r.world;
    r := Answer(false, r.world);
    var attempt := 0;
    while attempt < ATTEMPTS
      invariant 0 <= attempt <= ATTEMPTS && !r.ok
      invariant Attempt(r.world, f, name, image, attempt) == Attempt(removed, f, name, image, 0)
    {
      var now := if attempt > 0 then Remove(r.world, f, name).world else r.world;
      var created := Create(now, f, name, image);
      var busy := Of(now, f).busy;
      r := created;
      if created.ok {
        busy := Of(created.world, f).busy;
        r := Start(created.world, f, name);
        if r.ok {
          return;
        }
      }
      if !busy {
        return;
      }
      attempt := attempt + 1;
    }
  }

  // ---- One update

  /** `restored`: the rollback went through without an error. */
  datatype Result = Result(ok: bool, rolledBack: bool, restored: bool)

  /** The digest is known and the image is a plain tag. */
  predicate Pinnable(image: string, digest: Option<string>) {
    Known(digest) && '@' !in image
  }

  function PinnedOr(image: string, digest: Option<string>): string {
    if Pinnable(image, digest) then Pinned(image, digest.value) else image
  }

  datatype Found = Found(ok: bool, name: string, place: Place, world: World)

  /** What is known of the container before anything changes; without an inspection only the cached name. */
  function LookUp(w: World, f: Fortune, row: Row, id: string): Found {
    var asked := Ask(w, f, id in w.names);
    if !asked.ok then Found(true, row.name, Standalone, asked.world)
    else if Of(w, f).place.Standalone? then Found(true, w.names[id], Standalone, asked.world)
    else
      var listed := Ask(asked.world, f, true);
      Found(listed.ok, w.names[id], Of(asked.world, f).place, listed.world)
  }

  function PullEither(w: World, f: Fortune, first: string, second: string): Answer {
    var pulled := Pull(w, f, first);
    if pulled.ok then pulled else Pull(pulled.world, f, second)
  }

  function PullAndTag(w: World, f: Fortune, image: string, remote: Option<string>): Answer {
    var ref := PinnedOr(image, remote);
    var pulled := PullEither(w, f, ref, image);
    if !pulled.ok || !Pinnable(image, remote) then pulled
    else
      var tagged := Tag(pulled.world, f, ref, image);
      if tagged.ok then tagged else Tag(tagged.world, f, ref, image)
  }

  function Recreate(w: World, f: Fortune, place: Place, image: string, name: string, id: string): Answer {
    match place
    case Service => Up(w, f, name, image)
    case Project => UpAll(w, f)
    case Standalone => Replace(w, f, id, image)
  }

  /** The container is looked for in the list, by its name and then by its old id; none found is no error. */
  function RollbackStandalone(w: World, f: Fortune, name: string, id: string, image: string): Answer {
    var listed := Ask(w, f, true);
    if !listed.ok then listed
    else if name in w.containers then
      var asked := Ask(listed.world, f, true);
      if asked.ok then Swap(asked.world, f, name, image) else asked
    else if id in w.names then Replace(listed.world, f, id, image)
    else listed
  }

  function Rollback(w: World, f: Fortune, row: Row, place: Place, name: string, id: string): Answer {
    var image := PinnedOr(row.image, row.current);
    var pulled := PullEither(w, f, image, row.image);
    if !pulled.ok then pulled
    else
      match place
      case Service => Up(pulled.world, f, Bare(name), image)
      case Project => UpAll(pulled.world, f)
      case Standalone => RollbackStandalone(pulled.world, f, Bare(name), id, image)
  }

  predicate Offered(cached: Option<Row>) {
    cached.Some? && cached.value.available
  }

  /** How far an update came, and how it ended. `watched` is the container whose health was asked for. */
  datatype Report = Report(result: Result, place: Place, watched: string, world: World)

  const REFUSED := Result(false, false, false)

  function Apply(w: World, f: Fortune, cached: Option<Row>, id: string): Report {
    if !Offered(cached) then Report(REFUSED, Standalone, "", w)
    else
      var row := cached.value;
      var found := LookUp(w, f, row, id);
      if !found.ok then Report(REFUSED, found.place, Bare(found.name), found.world)
      else
        var pulled := PullAndTag(found.world, f, row.image, row.remote);
        if !pulled.ok then Report(REFUSED, found.place, Bare(found.name), pulled.world)
        else
          var made := Recreate(pulled.world, f, found.place, row.image, found.name, id);
          if !made.ok then Report(REFUSED, found.place, Bare(found.name), made.world)
          else
            var waited := Wait(made.world, f, Bare(found.name), made.world.clock + TIMEOUT_MS);
            if waited.ok then Report(Result(true, false, false), found.place, Bare(found.name), waited.world)
            else
              var back := Rollback(waited.world, f, row, found.place, found.name, id);
              Report(Result(false, true, back.ok), found.place, Bare(found.name), back.world)
  }

  /** The steps of `applyUpdate` in their order. */
  method ApplyUpdate(w: World, f: Fortune, cached: Option<Row>, id: string) returns (r: Report)
    ensures r == Apply(w, f, cached, id)
  {
    hide LookUp, PullAndTag, Recreate, Rollback, Wait;
    if cached.None? || !cached.value.available {
      return Report(REFUSED, Standalone, "", w);
    }
    var row := cached.value;
    var found := LookUp(w, f, row, id);
    r := Report(REFUSED, found.place, Bare(found.name), found.world);
    if !found.ok {
      return;
    }
    var done := PullAndTag(found.world, f, row.image, row.remote);
    if done.ok {
      if found.place.Standalone? {
        done := RecreateStandalone(done.world, f, id, row.image);
        StandaloneRecreates(found.world, f, row, found.name, id);
      } else {
        done := Recreate(done.world, f, found.place, row.image, found.name, id);
      }
    }
    r := r.(world := done.world);
    if !done.ok {
      return;
    }
    var health, _ := WaitForContainerHealthy(done.world, f, found.name, TIMEOUT_MS);
    if health.ok {
      return r.(result := Result(true, false, false), world := health.world);
    }
    var back := Rollback(health.world, f, row, found.place, found.name, id);
    r := r.(result := Result(false, true, back.ok), world := back.world);
  }

  lemma StandaloneRecreates(w: World, f: Fortune, row: Row, name: string, id: string)
    ensures Recreate(PullAndTag(w, f, row.image, row.remote).world, f, Standalone, row.image, name, id)
         == Replace(PullAndTag(w, f, row.image, row.remote).world, f, id, row.image)
  {
    hide PullAndTag, Replace;
  }
}
