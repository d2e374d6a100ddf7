/** Docker as the updates see it: a world that every call changes and may fail to change. */
module DockerHost {
  import opened Text
  import opened ImageRef

  datatype Container = Container(digest: string, running: bool)

  datatype Observation = Missing | NotRunning | Passing | Starting | Unhealthy

  /** Where a container belongs: to nothing, to a service of a known project, to a project as a whole. */
  datatype Place = Standalone | Service | Project

  /** What was called, and how it went. `digest` is what the reference named at that moment. */
  datatype Event =
    | Asked(ok: bool)
    | Pulled(ref: string, ok: bool)
    | Tagged(target: string, digest: string, ok: bool)
    | Stopped(name: string, ok: bool)
    | Removed(name: string, ok: bool)
    | Created(name: string, image: string, digest: string, ok: bool)
    | Started(name: string, ok: bool)
    | Upped(name: string, image: string, digest: string, ok: bool)
    | UppedAll(ok: bool)
    | Looked(name: string, seen: Observation)

  /**
   * How one call turns out. `busy`: it fails because of a port in use; `lost`: a failing compose call has removed the
   * container; `digest`: what the registry serves; `place`: what an inspection or the project list tells; `others`:
   * the containers after a whole project was recreated; `ms`: the time a look takes.
   */
  datatype Luck = Luck(
    ok: bool,
    busy: bool,
    lost: bool,
    digest: string,
    seen: Observation,
    place: Place,
    others: map<string, Container>,
    ms: nat)

  /** The luck of call number `n`; the log counts the calls. */
  type Fortune = nat -> Luck

  /** Local references and what they name; containers by name; names by id; the clock; all calls so far. */
  datatype World = World(
    images: map<string, string>,
    containers: map<string, Container>,
    names: map<string, string>,
    clock: nat,
    log: seq<Event>)

  datatype Answer = Answer(ok: bool, world: World)

  /** References with a digest name that digest. */
  ghost predicate Valid(w: World) {
    forall ref <- w.images :: '@' in ref ==> w.images[ref] == DigestPart(ref)
  }

  function Of(w: World, f: Fortune): Luck {
    f(|w.log|)
  }

  function Logged(w: World, e: Event): World {
    w.(log := w.log + [e])
  }

  // ---- The calls

  function Ask(w: World, f: Fortune, possible: bool): Answer {
    var ok := Of(w, f).ok && possible;
    Answer(ok, Logged(w, Asked(ok)))
  }

  function Pull(w: World, f: Fortune, ref: string): Answer {
    var luck := Of(w, f);
    var images :=
      if '@' in ref then w.images[ref := DigestPart(ref)]
      else w.images[ref := luck.digest][Pinned(ref, luck.digest) := luck.digest];
    Answer(luck.ok, Logged(if luck.ok then w.(images := images) else w, Pulled(ref, luck.ok)))
  }

  function Tag(w: World, f: Fortune, source: string, target: string): Answer {
    if Of(w, f).ok && source in w.images then
      var digest := w.images[source];
      Answer(true, Logged(w.(images := w.images[target := digest]), Tagged(target, digest, true)))
    else Answer(false, Logged(w, Tagged(target, "", false)))
  }

  function Stop(w: World, f: Fortune, name: string): Answer {
    var ok := Of(w, f).ok && name in w.containers;
    var stopped := if ok then w.containers[name := w.containers[name].(running := false)] else w.containers;
    Answer(ok, Logged(w.(containers := stopped), Stopped(name, ok)))
  }

  function Remove(w: World, f: Fortune, name: string): Answer {
    if Of(w, f).ok && name in w.containers then
      var names := map id | id in w.names && w.names[id] != name :: w.names[id];
      Answer(true, Logged(w.(containers := w.containers - {name}, names := names), Removed(name, true)))
    else Answer(false, Logged(w, Removed(name, false)))
  }

  /** The image must be there and the name free. */
  function Create(w: World, f: Fortune, name: string, image: string): Answer {
    if Of(w, f).ok && image in w.images && name !in w.containers then
      var digest := w.images[image];
      Answer(true, Logged(w.(containers := w.containers[name := Container(digest, false)]), Created(name, image, digest, true)))
    else Answer(false, Logged(w, Created(name, image, "", false)))
  }

  function Start(w: World, f: Fortune, name: string): Answer {
    if Of(w, f).ok && name in w.containers then
      Answer(true, Logged(w.(containers := w.containers[name := w.containers[name].(running := true)]), Started(name, true)))
    else Answer(false, Logged(w, Started(name, false)))
  }

  /** `docker compose up --force-recreate --pull never` for the service that runs as `name`. */
  function Up(w: World, f: Fortune, name: string, image: string): Answer {
    var luck := Of(w, f);
    if luck.ok && image in w.images then
      var digest := w.images[image];
      Answer(true, Logged(w.(containers := w.containers[name := Container(digest, true)]), Upped(name, image, digest, true)))
    else
      Answer(false, Logged(if luck.lost then w.(containers := w.containers - {name}) else w, Upped(name, image, "", false)))
  }

  function UpAll(w: World, f: Fortune): Answer {
    Answer(Of(w, f).ok, Logged(w.(containers := Of(w, f).others), UppedAll(Of(w, f).ok)))
  }

  /** Only a running container can pass. */
  function Look(w: World, f: Fortune, name: string): (Observation, World) {
    var luck := Of(w, f);
    var seen :=
      if name !in w.containers then Missing
      else if !w.containers[name].running && luck.seen.Passing? then NotRunning
      else luck.seen;
    (seen, Logged(w.(clock := w.clock + luck.ms), Looked(name, seen)))
  }

  function Sleep(w: World, ms: nat): World {
    w.(clock := w.clock + ms)
  }

  // ---- Reading the log

  predicate Failed(e: Event) {
    if e.Looked? then !e.seen.Passing? else !e.ok
  }

  /** A container has been recreated and runs. */
  predicate Completed(e: Event) {
    (e.Started? || e.Upped? || e.UppedAll?) && e.ok
  }

  predicate Healthy(e: Event) {
    e.Looked? && e.seen.Passing?
  }

  /** What a stretch of calls has added. */
  function Added(before: World, after: World): seq<Event> {
    if before.log <= after.log then after.log[|before.log|..] else []
  }

  predicate Follows(before: World, after: World, events: seq<Event>) {
    after.log == before.log + events
  }
}
