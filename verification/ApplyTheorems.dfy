/** What an update's result says about what was done, for every way the calls can turn out. */
module ApplyTheorems {
  import opened Text
  import opened ImageRef
  import opened UpdateCache
  import opened DockerHost
  import opened ApplyUpdate
  import opened ApplyTrace

  // ---- The stages of an offered update

  function Pulling(w: World, f: Fortune, row: Row, id: string): Answer {
    PullAndTag(LookUp(w, f, row, id).world, f, row.image, row.remote)
  }

  function Making(w: World, f: Fortune, row: Row, id: string): Answer {
    var found := LookUp(w, f, row, id);
    Recreate(Pulling(w, f, row, id).world, f, found.place, row.image, found.name, id)
  }

  function Waiting(w: World, f: Fortune, row: Row, id: string): Answer {
    var made := Making(w, f, row, id).world;
    Wait(made, f, Bare(LookUp(w, f, row, id).name), made.clock + TIMEOUT_MS)
  }

  function Returning(w: World, f: Fortune, row: Row, id: string): Answer {
    var found := LookUp(w, f, row, id);
    Rollback(Waiting(w, f, row, id).world, f, row, found.place, found.name, id)
  }

  predicate Reached(w: World, f: Fortune, row: Row, id: string) {
    LookUp(w, f, row, id).ok && Pulling(w, f, row, id).ok
  }

  lemma Stages(w: World, f: Fortune, row: Row, id: string)
    requires row.available
    ensures var r := Apply(w, f, Some(row), id);
      && r.place == LookUp(w, f, row, id).place && r.watched == Bare(LookUp(w, f, row, id).name)
      && (!LookUp(w, f, row, id).ok ==> r.result == REFUSED && r.world == LookUp(w, f, row, id).world)
      && (LookUp(w, f, row, id).ok && !Pulling(w, f, row, id).ok ==>
        r.result == REFUSED && r.world == Pulling(w, f, row, id).world)
      && (Reached(w, f, row, id) && !Making(w, f, row, id).ok ==>
        r.result == REFUSED && r.world == Making(w, f, row, id).world)
      && (Reached(w, f, row, id) && Making(w, f, row, id).ok && Waiting(w, f, row, id).ok ==>
        r.result == Result(true, false, false) && r.world == Waiting(w, f, row, id).world)
      && (Reached(w, f, row, id) && Making(w, f, row, id).ok && !Waiting(w, f, row, id).ok ==>
        r.result == Result(false, true, Returning(w, f, row, id).ok) && r.world == Returning(w, f, row, id).world)
  {
    hide LookUp, PullAndTag, Recreate, Wait, Rollback;
  }

  /** Look up, pull and tag. */
  lemma Prepared(w: World, f: Fortune, row: Row, id: string) returns (a: seq<Event>)
    requires Valid(w)
    ensures var r := Pulling(w, f, row, id);
      && Valid(r.world) && Follows(w, r.world, a) && Preparing(a)
      && r.world.containers == w.containers && r.world.names == w.names
      && (!r.ok ==> LastFailed(a)) && (r.ok ==> row.image in r.world.images)
      && (r.ok && Pinnable(row.image, row.remote) ==>
        r.world.images[row.image] == row.remote.value && a != [] && a[|a| - 1] == Tagged(row.image, row.remote.value, true))
  {
    hide LookUp, PullAndTag;
    var found := LookUpAdds(w, f, row, id);
    a := PullAndTagAdds(LookUp(w, f, row, id).world, f, row.image, row.remote);
    a := found + a;
  }

  // ---- Success

  /** The recreation that a success speaks of, at the end of `b`. */
  predicate RecreatedFrom(before: World, r: Report, b: seq<Event>, id: string, image: string) {
    image in r.world.images &&
    match r.place
    case Project => b != [] && b[|b| - 1] == UppedAll(true)
    case Service =>
      && b != [] && b[|b| - 1] == Upped(r.watched, image, r.world.images[image], true)
      && RunsOn(r.world, r.watched, r.world.images[image])
    case Standalone =>
      && id in before.names && |b| >= 2
      && b[|b| - 2] == Created(before.names[id], image, r.world.images[image], true)
      && b[|b| - 1] == Started(before.names[id], true)
      && RunsOn(r.world, before.names[id], r.world.images[image])
  }

  predicate NamesAreBare(w: World) {
    forall id <- w.names :: Bare(w.names[id]) == w.names[id]
  }

  /**
   * A success has, in this order and in this call: pointed the tag at the registry's digest, recreated the container
   * from that tag, and then seen the watched container healthy. Nothing else happened after the recreation.
   */
  lemma SuccessIsEarned(w: World, f: Fortune, row: Row, id: string) returns (a: seq<Event>, b: seq<Event>, c: seq<Event>)
    requires Valid(w) && NamesAreBare(w) && row.available
    ensures var r := Apply(w, f, Some(row), id);
      r.result.ok ==>
      && Follows(w, r.world, a + b + c) && Preparing(a) && NoLooks(b)
      && (Pinnable(row.image, row.remote) ==> a != [] && a[|a| - 1] == Tagged(row.image, row.remote.value, true))
      && RecreatedFrom(w, r, b, id, row.image)
      && (Pinnable(row.image, row.remote) ==> r.world.images[row.image] == row.remote.value)
      && LooksAt(c, r.watched) && c != [] && c[|c| - 1] == Looked(r.watched, Passing)
  {
    hide LookUp, PullAndTag, Recreate, Wait, Rollback, Apply;
    Stages(w, f, row, id);
    a, b, c := [], [], [];
    if !Apply(w, f, Some(row), id).result.ok {
      return;
    }
    a := Prepared(w, f, row, id);
    var found := LookUp(w, f, row, id);
    var pulled := Pulling(w, f, row, id);
    var _ := LookUpAdds(w, f, row, id);
    assert id in w.names ==> Bare(w.names[id]) == w.names[id];
    b := RecreateAdds(pulled.world, f, found.place, row.image, found.name, id);
    var made := Making(w, f, row, id);
    c := WaitAdds(made.world, f, Bare(found.name), made.world.clock + TIMEOUT_MS);
    assert found.place.Standalone? ==> pulled.world.names[id] == w.names[id];
    assert Apply(w, f, Some(row), id).world.images == pulled.world.images;
    assert found.place.Project? ==> b[|b| - 1] == UppedAll(true);
  }

  // ---- The three ends

  /** Everything an offered update adds to the log, by stages. */
  lemma Story(w: World, f: Fortune, row: Row, id: string)
    returns (a: seq<Event>, b: seq<Event>, c: seq<Event>, d: seq<Event>)
    requires Valid(w) && row.available
    ensures var r := Apply(w, f, Some(row), id);
      && Follows(w, r.world, a + b + c + d) && Preparing(a) && NoLooks(b) && NoLooks(d)
      && (r.result.rolledBack || r.result.ok ==> b != [] && Completed(b[|b| - 1]))
      && (r.result.ok ==> !r.result.rolledBack && d == [] && c != [] && Healthy(c[|c| - 1]))
      && (r.result.rolledBack ==> NoneHealthy(c) && LastFailed(c))
      && (!r.result.ok && !r.result.rolledBack ==>
        r.result == REFUSED && c == [] && d == [] && NoneCompleted(b) && LastFailed(a + b))
      && (r.result.restored ==> r.result.rolledBack)
      && (r.result.rolledBack && !r.result.restored ==> LastFailed(d))
  {
    hide LookUp, PullAndTag, Recreate, Wait, Rollback, Apply, Valid;
    Stages(w, f, row, id);
    b, c, d := [], [], [];
    var found := LookUp(w, f, row, id);
    a := LookUpAdds(w, f, row, id);
    if found.ok {
      a := Prepared(w, f, row, id);
      var pulled := Pulling(w, f, row, id);
      if pulled.ok {
        b := RecreateAdds(pulled.world, f, found.place, row.image, found.name, id);
        var made := Making(w, f, row, id);
        if made.ok {
          c := WaitAdds(made.world, f, Bare(found.name), made.world.clock + TIMEOUT_MS);
          var waited := Waiting(w, f, row, id);
          if !waited.ok {
            ValidStays(w, f, row, id);
            d := RollbackAdds(waited.world, f, row, found.place, found.name, id);
          }
        }
      }
    }
  }

  lemma ValidStays(w: World, f: Fortune, row: Row, id: string)
    requires Valid(w)
    ensures Valid(Waiting(w, f, row, id).world)
  {
    hide LookUp, PullAndTag, Recreate, Wait;
    var a := Prepared(w, f, row, id);
    var found := LookUp(w, f, row, id);
    var b := RecreateAdds(Pulling(w, f, row, id).world, f, found.place, row.image, found.name, id);
    var made := Making(w, f, row, id);
    var c := WaitAdds(made.world, f, Bare(found.name), made.world.clock + TIMEOUT_MS);
  }

  predicate AnyCompleted(events: seq<Event>) {
    exists e <- events :: Completed(e)
  }

  predicate AnyHealthy(events: seq<Event>) {
    exists e <- events :: Healthy(e)
  }

  /**
   * The result follows from what happened: success exactly when the container was recreated and then seen healthy, a
   * rollback exactly when it was recreated and never seen healthy, a plain failure exactly when it was not recreated.
   */
  lemma ResultSaysWhatHappened(w: World, f: Fortune, row: Row, id: string)
    requires Valid(w) && row.available
    ensures var r, added := Apply(w, f, Some(row), id).result, Added(w, Apply(w, f, Some(row), id).world);
      && (r.ok <==> AnyCompleted(added) && AnyHealthy(added))
      && (r.rolledBack <==> AnyCompleted(added) && !AnyHealthy(added))
      && (r == REFUSED <==> !AnyCompleted(added))
      && (!r.ok ==> exists e <- added :: Failed(e))
  {
    hide Apply, Valid;
    var a, b, c, d := Story(w, f, row, id);
    var r, added := Apply(w, f, Some(row), id).result, Added(w, Apply(w, f, Some(row), id).world);
    assert added == a + b + c + d;
    if r.ok || r.rolledBack {
      assert b[|b| - 1] in added;
    }
    if r.ok {
      assert c[|c| - 1] in added;
    } else if r.rolledBack {
      assert c[|c| - 1] in added;
    } else {
      assert (a + b)[|a + b| - 1] in added;
    }
  }

  // ---- The watched container is the recreated one

  /** The cached name is still the container's own. */
  predicate NameIsCurrent(w: World, row: Row, id: string) {
    id in w.names ==> Bare(row.name) == w.names[id]
  }

  /**
   * When the cached name is current, a success means that the container runs the registry's digest and passed its health
   * check after that, and a rollback that went through means that it runs the previous digest.
   */
  lemma UnderOneName(w: World, f: Fortune, row: Row, id: string)
    requires Valid(w) && NamesAreBare(w) && row.available && NameIsCurrent(w, row, id)
    requires !Apply(w, f, Some(row), id).place.Project?
    ensures var r := Apply(w, f, Some(row), id);
      && (r.result.ok || r.result.rolledBack ==> id in w.names && r.watched == w.names[id])
      && (r.result.ok && Pinnable(row.image, row.remote) ==> RunsOn(r.world, w.names[id], row.remote.value))
      && (r.result.restored && Pinnable(row.image, row.current) ==> RunsOn(r.world, w.names[id], row.current.value))
  {
    hide LookUp, PullAndTag, Recreate, Wait, Rollback, Apply, Valid;
    Stages(w, f, row, id);
    var found := LookUp(w, f, row, id);
    var _ := LookUpAdds(w, f, row, id);
    if Reached(w, f, row, id) && Making(w, f, row, id).ok {
      var a := Prepared(w, f, row, id);
      var pulled := Pulling(w, f, row, id);
      var b := RecreateAdds(pulled.world, f, found.place, row.image, found.name, id);
      var made := Making(w, f, row, id);
      var c := WaitAdds(made.world, f, Bare(found.name), made.world.clock + TIMEOUT_MS);
      if !Waiting(w, f, row, id).ok {
        ValidStays(w, f, row, id);
        var d := RollbackAdds(Waiting(w, f, row, id).world, f, row, found.place, found.name, id);
      }
    }
  }

  /** The tag keeps naming the digest that failed, unless the rollback has to pull the tag itself. */
  lemma RollbackLeavesTheTag(w: World, f: Fortune, row: Row, id: string)
    requires Valid(w) && row.available && Pinnable(row.image, row.remote) && Pinnable(row.image, row.current)
    ensures var r := Apply(w, f, Some(row), id);
      r.result.rolledBack && Pulled(row.image, true) !in Added(Waiting(w, f, row, id).world, r.world) ==>
        row.image in r.world.images && r.world.images[row.image] == row.remote.value
  {
    hide LookUp, PullAndTag, Recreate, Wait, Rollback, Apply, Valid;
    if !Apply(w, f, Some(row), id).result.rolledBack {
      return;
    }
    Stages(w, f, row, id);
    var found := LookUp(w, f, row, id);
    var a := Prepared(w, f, row, id);
    var b := RecreateAdds(Pulling(w, f, row, id).world, f, found.place, row.image, found.name, id);
    var made := Making(w, f, row, id);
    var c := WaitAdds(made.world, f, Bare(found.name), made.world.clock + TIMEOUT_MS);
    ValidStays(w, f, row, id);
    var d := RollbackAdds(Waiting(w, f, row, id).world, f, row, found.place, found.name, id);
  }

  /**
   * A plain failure of a standalone update leaves every other container alone and its own as it was, stopped (the
   * removal failed after the stop), or gone or not running (the removal went through): the log says which.
   */
  lemma FailureLeavesBehind(w: World, f: Fortune, row: Row, id: string)
    requires Valid(w) && row.available
    requires Apply(w, f, Some(row), id).result == REFUSED && Apply(w, f, Some(row), id).place.Standalone?
    ensures var after := Apply(w, f, Some(row), id).world;
      && (id !in w.names ==> after.containers == w.containers)
      && (id in w.names ==> after.containers - {w.names[id]} == w.containers - {w.names[id]})
      && (id in w.names ==> LeftBehind(w, after, Added(w, after), w.names[id], row.image))
  {
    hide LookUp, PullAndTag, Recreate, Wait, Rollback, Apply, Valid;
    Stages(w, f, row, id);
    var found := LookUp(w, f, row, id);
    var a := LookUpAdds(w, f, row, id);
    var after := Apply(w, f, Some(row), id).world;
    if found.ok {
      a := Prepared(w, f, row, id);
      if Pulling(w, f, row, id).ok {
        var pulled := Pulling(w, f, row, id).world;
        var b := RecreateAdds(pulled, f, found.place, row.image, found.name, id);
        assert Added(w, after) == a + b;
        assert forall e: Event :: e.Removed? || e.Stopped? ==> (e in a + b <==> e in b);
        if id in w.names {
          SameOthers(pulled, f, found.name, id, row.image);
        }
      } else {
        assert Added(w, after) == a;
      }
    } else {
      assert Added(w, after) == a;
    }
  }

  lemma SameOthers(w: World, f: Fortune, name: string, id: string, image: string)
    requires id in w.names
    ensures Recreate(w, f, Standalone, image, name, id).world.containers - {w.names[id]} == w.containers - {w.names[id]}
  {
    hide Replace;
    var b := ReplaceAdds(w, f, id, image);
  }

  // ---- Runs that go wrong

  /** A call that succeeds, on a host where no container belongs to a project. */
  predicate Fine(l: Luck) {
    l.ok && l.place.Standalone?
  }

  predicate FineFor(f: Fortune, from: nat, calls: nat) {
    forall n: nat :: from <= n < from + calls ==> Fine(f(n))
  }

  /** How many calls it takes to pull, and to tag when the digest is pinned. */
  function Pulls(row: Row): nat {
    if Pinnable(row.image, row.remote) then 2 else 1
  }

  lemma PullingFine(w: World, f: Fortune, image: string, remote: Option<string>)
    requires Valid(w) && FineFor(f, |w.log|, if Pinnable(image, remote) then 2 else 1)
    ensures var r := PullAndTag(w, f, image, remote);
      && r.ok && image in r.world.images && SameContainers(w, r.world)
      && |r.world.log| == |w.log| + if Pinnable(image, remote) then 2 else 1
  {
    hide Pull, Tag, Valid;
    var a := PullAndTagAdds(w, f, image, remote);
    var ref := PinnedOr(image, remote);
    PullKeeps(w, f, ref);
    PullIsFine(w, f, ref);
    if Pinnable(image, remote) {
      TagIsFine(Pull(w, f, ref).world, f, ref, image);
    }
  }

  lemma PullIsFine(w: World, f: Fortune, ref: string)
    requires Of(w, f).ok
    ensures Pull(w, f, ref).ok
  {
  }

  lemma TagIsFine(w: World, f: Fortune, source: string, target: string)
    requires Of(w, f).ok && source in w.images
    ensures Tag(w, f, source, target).ok && |Tag(w, f, source, target).world.log| == |w.log| + 1
  {
  }

  /** Stop and remove go well. */
  lemma RemovingFine(w: World, f: Fortune, name: string)
    requires name in w.containers && FineFor(f, |w.log|, 2)
    ensures var r := Remove(Stop(w, f, name).world, f, name);
      && r.ok && r.world.containers == w.containers - {name} && r.world.images == w.images
      && |r.world.log| == |w.log| + 2
  {
  }

  /** So do create and start. */
  lemma AttemptFine(w: World, f: Fortune, name: string, image: string)
    requires name !in w.containers && image in w.images && FineFor(f, |w.log|, 2)
    ensures var r := Attempt(w, f, name, image, 0);
      && r.ok && r.world.containers == w.containers[name := Container(w.images[image], true)]
      && |r.world.log| == |w.log| + 2
  {
  }

  lemma ReplaceFine(w: World, f: Fortune, id: string, image: string)
    requires id in w.names && w.names[id] in w.containers && image in w.images && FineFor(f, |w.log|, 5)
    ensures var r := Replace(w, f, id, image);
      && r.ok && r.world.containers == w.containers[w.names[id] := Container(w.images[image], true)]
      && |r.world.log| == |w.log| + 5
  {
    hide Attempt, Stop, Remove;
    var name := w.names[id];
    var asked := Ask(w, f, true).world;
    RemovingFine(asked, f, name);
    var removed := Remove(Stop(asked, f, name).world, f, name);
    AttemptFine(removed.world, f, name, image);
    assert w.containers - {name} + map[name := Container(w.images[image], true)]
        == w.containers[name := Container(w.images[image], true)];
  }

  /** The container an update is about exists. */
  predicate HasContainer(w: World, id: string) {
    id in w.names && w.names[id] in w.containers
  }

  /** All goes well up to the health wait, but perhaps for the first inspection. */
  lemma MakingFine(w: World, f: Fortune, row: Row, id: string)
    requires Valid(w) && HasContainer(w, id) && f(|w.log|).place.Standalone? && FineFor(f, |w.log| + 1, Pulls(row) + 5)
    ensures var found, made := LookUp(w, f, row, id), Making(w, f, row, id);
      && found.ok && found.place.Standalone? && found.name == (if f(|w.log|).ok then w.names[id] else row.name)
      && Pulling(w, f, row, id).ok && made.ok && |made.world.log| == |w.log| + Pulls(row) + 6
      && w.names[id] in made.world.containers && made.world.containers[w.names[id]].running
      && made.world.containers - {w.names[id]} == w.containers - {w.names[id]}
  {
    hide PullAndTag, Replace;
    var found := LookUp(w, f, row, id);
    PullingFine(found.world, f, row.image, row.remote);
    var pulled := Pulling(w, f, row, id);
    ReplaceFine(pulled.world, f, id, row.image);
    var digest := pulled.world.images[row.image];
    AddedAside(w.containers, w.names[id], Container(digest, true));
  }

  lemma PassesAtOnce(w: World, f: Fortune, name: string, deadline: nat)
    requires w.clock < deadline && name in w.containers && w.containers[name].running && Of(w, f).seen.Passing?
    ensures Wait(w, f, name, deadline).ok
  {
  }

  const WELL := Luck(true, false, false, "", Passing, Standalone, map[], 0)

  /** A success that speaks of another container than the one it recreated. */
  predicate Misleads(w: World, f: Fortune, row: Row, id: string) {
    var r := Apply(w, f, Some(row), id);
    r.result.ok && r.place.Standalone? && id in w.names && r.watched != w.names[id]
  }

  /** Another container runs under the name in the cache. */
  predicate NameIsTaken(w: World, row: Row, id: string) {
    && HasContainer(w, id) && Bare(row.name) != w.names[id]
    && Bare(row.name) in w.containers && w.containers[Bare(row.name)].running
  }

  lemma StaleNameMisleads(w: World, row: Row, id: string) returns (f: Fortune)
    requires Valid(w) && row.available && NameIsTaken(w, row, id)
    ensures Misleads(w, f, row, id)
  {
    hide LookUp, PullAndTag, Recreate, Rollback, Apply, Wait;
    var first := |w.log|;
    f := n => WELL.(ok := n != first);
    MakingFine(w, f, row, id);
    var made := Making(w, f, row, id).world;
    assert Bare(row.name) in made.containers - {w.names[id]} && Bare(row.name) in w.containers - {w.names[id]};
    assert (made.containers - {w.names[id]})[Bare(row.name)] == (w.containers - {w.names[id]})[Bare(row.name)];
    PassesAtOnce(made, f, Bare(row.name), made.clock + TIMEOUT_MS);
    Stages(w, f, row, id);
  }

  /** A standalone update can succeed on another container's health exactly when that container has the cached name. */
  lemma MisleadsIff(w: World, row: Row, id: string)
    requires Valid(w) && NamesAreBare(w) && row.available
    ensures (exists f: Fortune :: Misleads(w, f, row, id)) <==> NameIsTaken(w, row, id)
  {
    hide Misleads;
    if NameIsTaken(w, row, id) {
      var f := StaleNameMisleads(w, row, id);
    }
    forall f: Fortune
      ensures Misleads(w, f, row, id) ==> NameIsTaken(w, row, id)
    {
      MisleadingIsTaken(w, f, row, id);
    }
  }

  lemma MisleadingIsTaken(w: World, f: Fortune, row: Row, id: string)
    requires Valid(w) && NamesAreBare(w) && row.available
    ensures Misleads(w, f, row, id) ==> NameIsTaken(w, row, id)
  {
    hide LookUp, PullAndTag, Replace, Rollback, Apply, Wait, Valid;
    if !Misleads(w, f, row, id) {
      return;
    }
    Stages(w, f, row, id);
    var found := LookUp(w, f, row, id);
    var _ := LookUpAdds(w, f, row, id);
    assert Bare(w.names[id]) == w.names[id];
    var a := Prepared(w, f, row, id);
    var pulled := Pulling(w, f, row, id).world;
    var b := RecreateAdds(pulled, f, found.place, row.image, found.name, id);
    SameOthers(pulled, f, found.name, id, row.image);
    ReplacedExists(pulled, f, id, row.image);
    var made := Making(w, f, row, id).world;
    var c := WaitAdds(made, f, Bare(found.name), made.clock + TIMEOUT_MS);
    assert Bare(row.name) in made.containers - {w.names[id]};
    assert Bare(row.name) in w.containers - {w.names[id]};
  }

  lemma ReplacedExists(w: World, f: Fortune, id: string, image: string)
    requires Replace(w, f, id, image).ok
    ensures HasContainer(w, id)
  {
    hide Attempt;
  }

  /** The rollback of a recreated container that is unhealthy can fail, and is reported all the same. */
  lemma RollbackCanFail(w: World, row: Row, id: string) returns (f: Fortune)
    requires Valid(w) && row.available && HasContainer(w, id)
    ensures Apply(w, f, Some(row), id).result == Result(false, true, false)
  {
    hide LookUp, PullAndTag, Recreate, Rollback, Apply, Wait, Valid;
    var last := |w.log| + Pulls(row) + 6;
    f := n => WELL.(ok := n < last, seen := Unhealthy);
    MakingFine(w, f, row, id);
    Stages(w, f, row, id);
    var found, made := LookUp(w, f, row, id), Making(w, f, row, id).world;
    var c := WaitAdds(made, f, Bare(found.name), made.clock + TIMEOUT_MS);
    NeverPasses(made, f, Bare(found.name), made.clock + TIMEOUT_MS);
    var waited := Waiting(w, f, row, id).world;
    assert waited.log == made.log + c && |waited.log| >= last;
    NothingPulls(waited, f, row, found.place, found.name, id);
  }

  lemma {:induction false} NeverPasses(w: World, f: Fortune, name: string, deadline: nat)
    requires forall n: nat :: !f(n).seen.Passing?
    ensures !Wait(w, f, name, deadline).ok
    decreases deadline - w.clock
  {
    if w.clock < deadline {
      var (seen, next) := Look(w, f, name);
      if !seen.Unhealthy? {
        NeverPasses(Sleep(next, POLL_MS), f, name, deadline);
      }
    }
  }

  predicate FailsFrom(f: Fortune, from: nat) {
    !f(from).ok && !f(from + 1).ok
  }

  lemma NothingPulls(w: World, f: Fortune, row: Row, place: Place, name: string, id: string)
    requires FailsFrom(f, |w.log|)
    ensures !Rollback(w, f, row, place, name, id).ok
  {
    hide RollbackStandalone, Up;
  }

  /** When the creation fails after the removal the container is gone, and nothing is rolled back. */
  lemma ContainerCanBeLost(w: World, row: Row, id: string) returns (f: Fortune)
    requires Valid(w) && row.available && HasContainer(w, id)
    ensures Apply(w, f, Some(row), id).result == REFUSED
    ensures Apply(w, f, Some(row), id).world.containers == w.containers - {w.names[id]}
  {
    hide LookUp, PullAndTag, Rollback, Apply, Wait, Attempt, Stop, Remove, Valid;
    var last := |w.log| + Pulls(row) + 4;
    f := n => WELL.(ok := n < last);
    Stages(w, f, row, id);
    FoundFine(w, f, row, id);
    var found, pulled := LookUp(w, f, row, id), Pulling(w, f, row, id).world;
    var asked := Ask(pulled, f, true).world;
    RemovingFine(asked, f, w.names[id]);
    NoCreation(Remove(Stop(asked, f, w.names[id]).world, f, w.names[id]).world, f, w.names[id], row.image);
  }

  lemma FoundFine(w: World, f: Fortune, row: Row, id: string)
    requires Valid(w) && HasContainer(w, id) && FineFor(f, |w.log|, Pulls(row) + 1)
    ensures var found, pulled := LookUp(w, f, row, id), Pulling(w, f, row, id);
      && found.ok && found.place.Standalone? && pulled.ok && |pulled.world.log| == |w.log| + Pulls(row) + 1
      && pulled.world.containers == w.containers && pulled.world.names == w.names
  {
    hide PullAndTag;
    PullingFine(LookUp(w, f, row, id).world, f, row.image, row.remote);
  }

  lemma NoCreation(w: World, f: Fortune, name: string, image: string)
    requires !Of(w, f).ok && !Of(w, f).busy
    ensures !Attempt(w, f, name, image, 0).ok && Attempt(w, f, name, image, 0).world.containers == w.containers
  {
  }

  /** When the removal fails after the stop the container stays behind stopped, and nothing is rolled back. */
  lemma ContainerCanBeStopped(w: World, row: Row, id: string) returns (f: Fortune)
    requires Valid(w) && row.available && HasContainer(w, id)
    ensures Apply(w, f, Some(row), id).result == REFUSED
    ensures Apply(w, f, Some(row), id).world.containers
         == w.containers[w.names[id] := w.containers[w.names[id]].(running := false)]
  {
    hide LookUp, PullAndTag, Rollback, Apply, Wait, Attempt, Valid;
    var last := |w.log| + Pulls(row) + 3;
    f := n => WELL.(ok := n < last);
    Stages(w, f, row, id);
    FoundFine(w, f, row, id);
    var found, pulled := LookUp(w, f, row, id), Pulling(w, f, row, id).world;
    assert |Ask(pulled, f, true).world.log| == last - 1;
  }

  /** Offered updates of a reachable cache know the digest to go back to. */
  lemma SoundRowsCanRollBack(row: Row)
    requires Sound(row) && row.available && '@' !in row.image
    ensures Pinnable(row.image, row.current) && Pinnable(row.image, row.remote)
    ensures PinnedOr(row.image, row.current) != PinnedOr(row.image, row.remote)
  {
    PinnedParts(row.image, row.current.value);
    PinnedParts(row.image, row.remote.value);
  }

  // ---- Retries

  function Creations(events: seq<Event>): nat {
    if events == [] then 0
    else Creations(events[..|events| - 1]) + if events[|events| - 1].Created? then 1 else 0
  }

  /** At most three creations, and one when no failure is about a port in use. */
  lemma {:induction false} FewCreations(w: World, f: Fortune, name: string, image: string, k: nat) returns (b: seq<Event>)
    requires k <= ATTEMPTS
    ensures Follows(w, Attempt(w, f, name, image, k).world, b) && Creations(b) <= ATTEMPTS - k
    ensures (forall n: nat :: !f(n).busy) ==> Creations(b) <= 1
    decreases ATTEMPTS - k
  {
    hide Remove, Create, Start, Attempt;
    b := [];
    if k < ATTEMPTS {
      b := OneCreation(w, f, name, image, k);
      var tried := Try(w, f, name, image, k);
      AttemptUnfolds(w, f, name, image, k);
      if Attempt(w, f, name, image, k) != tried {
        var more := FewCreations(tried.world, f, name, image, k + 1);
        CreationsAdd(b, more);
        b := b + more;
      }
    } else {
      NoAttempt(w, f, name, image);
    }
  }

  lemma OneCreation(w: World, f: Fortune, name: string, image: string, k: nat) returns (b: seq<Event>)
    ensures Follows(w, Try(w, f, name, image, k).world, b) && Creations(b) == 1
  {
    hide Remove, Create, Start;
    b := [];
    var cleared := w;
    if k > 0 {
      RemoveKeeps(w, f, name);
      cleared := Remove(w, f, name).world;
      b := [Removed(name, Remove(w, f, name).ok)];
    }
    CreateKeeps(cleared, f, name, image);
    var created := Create(cleared, f, name, image);
    var made := Created(name, image, if created.ok then cleared.images[image] else "", created.ok);
    CreationsSnoc(b, made);
    b := b + [made];
    if created.ok {
      StartKeeps(created.world, f, name);
      var started := Started(name, Start(created.world, f, name).ok);
      CreationsSnoc(b, started);
      b := b + [started];
    }
  }

  lemma CreationsSnoc(events: seq<Event>, e: Event)
    ensures Creations(events + [e]) == Creations(events) + if e.Created? then 1 else 0
  {
    assert (events + [e])[..|events|] == events;
  }

  lemma {:induction false} CreationsAdd(a: seq<Event>, b: seq<Event>)
    ensures Creations(a + b) == Creations(a) + Creations(b)
  {
    if b == [] {
      assert a + b == a;
    } else {
      CreationsAdd(a, b[..|b| - 1]);
      assert (a + b)[..|a + b| - 1] == a + b[..|b| - 1];
    }
  }
}
