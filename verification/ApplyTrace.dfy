/** What each step of an update adds to the log, and what it does to images and containers. */
module ApplyTrace {
  import opened Text
  import opened ImageRef
  import opened UpdateCache
  import opened DockerHost
  import opened ApplyUpdate

  /** Nothing is recreated and nobody's health is asked for. */
  predicate Preparing(events: seq<Event>) {
    forall e <- events :: e.Asked? || e.Pulled? || e.Tagged?
  }

  predicate NoLooks(events: seq<Event>) {
    forall e <- events :: !e.Looked?
  }

  predicate NoneCompleted(events: seq<Event>) {
    forall e <- events :: !Completed(e)
  }

  predicate NoneHealthy(events: seq<Event>) {
    forall e <- events :: !Healthy(e)
  }

  predicate LastFailed(events: seq<Event>) {
    events != [] && Failed(events[|events| - 1])
  }

  predicate OnlyLogged(before: World, after: World) {
    after.(log := before.log) == before
  }

  predicate RunsOn(w: World, name: string, digest: string) {
    name in w.containers && w.containers[name] == Container(digest, true)
  }

  /** The containers and their names are as before. */
  predicate SameContainers(before: World, after: World) {
    after.containers == before.containers && after.names == before.names && after.clock == before.clock
  }

  // ---- Look up, pull, tag

  lemma LookUpAdds(w: World, f: Fortune, row: Row, id: string) returns (a: seq<Event>)
    ensures var found := LookUp(w, f, row, id);
      && Follows(w, found.world, a) && Preparing(a) && OnlyLogged(w, found.world)
      && (!found.ok ==> LastFailed(a))
      && (found.place.Standalone? ==> found.name == row.name || (id in w.names && found.name == w.names[id]))
      && (!found.place.Standalone? ==> id in w.names && found.name == w.names[id])
  {
    var asked := Ask(w, f, id in w.names);
    a := [Asked(asked.ok)];
    if asked.ok && !Of(w, f).place.Standalone? {
      a := a + [Asked(Of(asked.world, f).ok)];
    }
  }

  lemma PullKeeps(w: World, f: Fortune, ref: string)
    requires Valid(w)
    ensures var r := Pull(w, f, ref);
      && Valid(r.world) && Follows(w, r.world, [Pulled(ref, r.ok)]) && SameContainers(w, r.world)
      && (r.ok ==> ref in r.world.images) && (!r.ok ==> r.world.images == w.images)
      && forall other <- w.images :: other != ref ==>
        other in r.world.images && r.world.images[other] == w.images[other]
  {
    hide StripTag, DigestPart;
    PinnedParts(ref, Of(w, f).digest);
  }

  lemma PullEitherAdds(w: World, f: Fortune, first: string, second: string) returns (a: seq<Event>)
    requires Valid(w)
    ensures var r := PullEither(w, f, first, second);
      && Valid(r.world) && Follows(w, r.world, a) && Preparing(a) && SameContainers(w, r.world)
      && (r.ok ==> first in r.world.images || second in r.world.images) && (!r.ok ==> LastFailed(a))
      && (first != second && second in w.images && Pulled(second, true) !in a ==>
        second in r.world.images && r.world.images[second] == w.images[second])
  {
    hide Pull, Valid;
    PullKeeps(w, f, first);
    a := [Pulled(first, Pull(w, f, first).ok)];
    if !Pull(w, f, first).ok {
      PullKeeps(Pull(w, f, first).world, f, second);
      a := a + [Pulled(second, Pull(Pull(w, f, first).world, f, second).ok)];
    }
  }

  lemma TagKeeps(w: World, f: Fortune, source: string, target: string)
    requires Valid(w) && '@' !in target
    ensures var r := Tag(w, f, source, target);
      && Valid(r.world) && SameContainers(w, r.world)
      && (r.ok ==> source in w.images && r.world.images == w.images[target := w.images[source]])
      && (r.ok ==> Follows(w, r.world, [Tagged(target, w.images[source], true)]))
      && (!r.ok ==> r.world.images == w.images && Follows(w, r.world, [Tagged(target, "", false)]))
  {
  }

  /** The tag ends on the registry's digest, by the last event. */
  lemma PullAndTagAdds(w: World, f: Fortune, image: string, remote: Option<string>) returns (a: seq<Event>)
    requires Valid(w)
    ensures var r := PullAndTag(w, f, image, remote);
      && Valid(r.world) && Follows(w, r.world, a) && Preparing(a) && SameContainers(w, r.world)
      && (!r.ok ==> LastFailed(a)) && (r.ok ==> image in r.world.images)
      && (r.ok && Pinnable(image, remote) ==>
        r.world.images[image] == remote.value && a != [] && a[|a| - 1] == Tagged(image, remote.value, true))
  {
    hide PullEither, Valid, Tag;
    var ref := PinnedOr(image, remote);
    a := PullEitherAdds(w, f, ref, image);
    var pulled := PullEither(w, f, ref, image);
    if pulled.ok && Pinnable(image, remote) {
      PinnedNames(pulled.world, image, remote);
      TagKeeps(pulled.world, f, ref, image);
      var tagged := Tag(pulled.world, f, ref, image);
      if tagged.ok {
        a := a + [Tagged(image, remote.value, true)];
      } else {
        TagKeeps(tagged.world, f, ref, image);
        var again := Tag(tagged.world, f, ref, image);
        a := a + [Tagged(image, "", false), Tagged(image, if again.ok then remote.value else "", again.ok)];
      }
    }
  }

  lemma PinnedNames(w: World, image: string, digest: Option<string>)
    requires Valid(w) && Pinnable(image, digest)
    ensures PinnedOr(image, digest) in w.images ==> w.images[PinnedOr(image, digest)] == digest.value
    ensures '@' in PinnedOr(image, digest) && PinnedOr(image, digest) != image
  {
    PinnedParts(image, digest.value);
  }

  // ---- Recreating

  /** Gone, or created from the image and not started. */
  predicate Unfinished(w: World, name: string, image: string) {
    name in w.containers ==> image in w.images && w.containers[name] == Container(w.images[image], false)
  }

  /** The images and all other containers are as before. */
  predicate Elsewhere(before: World, after: World, name: string) {
    after.containers - {name} == before.containers - {name} && after.images == before.images && after.clock == before.clock
  }

  /** Created from what the image names, then started, by the last two events. */
  predicate Remade(w: World, events: seq<Event>, name: string, image: string) {
    && image in w.images && RunsOn(w, name, w.images[image])
    && |events| >= 2 && events[|events| - 2] == Created(name, image, w.images[image], true)
    && events[|events| - 1] == Started(name, true)
    && NoneCompleted(events[..|events| - 1])
  }

  predicate Made(before: World, r: Answer, events: seq<Event>, name: string, image: string) {
    && Follows(before, r.world, events) && NoLooks(events) && Elsewhere(before, r.world, name)
    && (r.ok ==> Remade(r.world, events, name, image))
    && (!r.ok ==> NoneCompleted(events) && LastFailed(events))
  }

  lemma RemoveKeeps(w: World, f: Fortune, name: string)
    ensures var r := Remove(w, f, name);
      && Follows(w, r.world, [Removed(name, r.ok)]) && Elsewhere(w, r.world, name)
      && (r.ok ==> name in w.containers && name !in r.world.containers) && (!r.ok ==> OnlyLogged(w, r.world))
  {
  }

  lemma CreateKeeps(w: World, f: Fortune, name: string, image: string)
    ensures var r := Create(w, f, name, image);
      && Elsewhere(w, r.world, name)
      && (r.ok ==> image in w.images && Follows(w, r.world, [Created(name, image, w.images[image], true)]))
      && (r.ok ==> name in r.world.containers && r.world.containers[name] == Container(w.images[image], false))
      && (!r.ok ==> Follows(w, r.world, [Created(name, image, "", false)]) && OnlyLogged(w, r.world))
  {
    if Create(w, f, name, image).ok {
      AddedAside(w.containers, name, Container(w.images[image], false));
    }
  }

  lemma StartKeeps(w: World, f: Fortune, name: string)
    ensures var r := Start(w, f, name);
      && Elsewhere(w, r.world, name) && Follows(w, r.world, [Started(name, r.ok)])
      && (r.ok ==> name in w.containers && r.world.containers == w.containers[name := w.containers[name].(running := true)])
      && (!r.ok ==> OnlyLogged(w, r.world))
  {
    if name in w.containers {
      AddedAside(w.containers, name, w.containers[name].(running := true));
    }
  }

  lemma AddedAside(m: map<string, Container>, name: string, c: Container)
    ensures m[name := c] - {name} == m - {name}
  {
  }

  /** One attempt: clear what is left, create, start. */
  function Try(w: World, f: Fortune, name: string, image: string, k: nat): Answer {
    var cleared := if k > 0 then Remove(w, f, name).world else w;
    var created := Create(cleared, f, name, image);
    if created.ok then Start(created.world, f, name) else created
  }

  lemma TryAdds(w: World, f: Fortune, name: string, image: string, k: nat) returns (b: seq<Event>)
    requires Unfinished(w, name, image)
    ensures var r := Try(w, f, name, image, k);
      Made(w, r, b, name, image) && (!r.ok ==> Unfinished(r.world, name, image))
  {
    hide Remove, Create, Start;
    b := [];
    var cleared := w;
    if k > 0 {
      RemoveKeeps(w, f, name);
      cleared := Remove(w, f, name).world;
      b := [Removed(name, Remove(w, f, name).ok)];
    }
    CreateKeeps(cleared, f, name, image);
    var created := Create(cleared, f, name, image);
    if !created.ok {
      b := b + [Created(name, image, "", false)];
    } else {
      StartKeeps(created.world, f, name);
      b := b + [Created(name, image, cleared.images[image], true), Started(name, Start(created.world, f, name).ok)];
    }
  }

  /** An attempt ends with its try, or another attempt follows it. */
  lemma AttemptUnfolds(w: World, f: Fortune, name: string, image: string, k: nat)
    requires k < ATTEMPTS
    ensures var tried := Try(w, f, name, image, k);
      Attempt(w, f, name, image, k) == tried
      || (!tried.ok && (exists n: nat :: f(n).busy)
          && Attempt(w, f, name, image, k) == Attempt(tried.world, f, name, image, k + 1))
  {
    hide Remove, Create, Start;
  }

  lemma {:induction false} AttemptAdds(w: World, f: Fortune, name: string, image: string, k: nat) returns (b: seq<Event>)
    requires k < ATTEMPTS && Unfinished(w, name, image)
    ensures var r := Attempt(w, f, name, image, k);
      Made(w, r, b, name, image) && (!r.ok ==> Unfinished(r.world, name, image))
    decreases ATTEMPTS - k
  {
    hide Try, Attempt;
    b := TryAdds(w, f, name, image, k);
    AttemptUnfolds(w, f, name, image, k);
    var tried := Try(w, f, name, image, k);
    if !tried.ok && Attempt(w, f, name, image, k) != tried {
      if k + 1 < ATTEMPTS {
        var more := AttemptAdds(tried.world, f, name, image, k + 1);
        Joined(w, tried.world, Attempt(tried.world, f, name, image, k + 1), b, more, name, image);
        b := b + more;
      } else {
        NoAttempt(tried.world, f, name, image);
      }
    }
  }

  lemma NoAttempt(w: World, f: Fortune, name: string, image: string)
    ensures Attempt(w, f, name, image, ATTEMPTS) == Answer(false, w)
  {
  }

  /** Two stretches in a row, the first without a completed recreation. */
  lemma Joined(w: World, between: World, r: Answer, first: seq<Event>, second: seq<Event>, name: string, image: string)
    requires Follows(w, between, first) && NoLooks(first) && NoneCompleted(first) && Elsewhere(w, between, name)
    requires Made(between, r, second, name, image)
    ensures Made(w, r, first + second, name, image)
  {
    var all := first + second;
    if r.ok {
      assert all[..|all| - 1] == first + second[..|second| - 1];
    }
  }

  /** How a failing recreation leaves its container: as it was, stopped, gone, or made anew without running. */
  predicate LeftBehind(before: World, after: World, events: seq<Event>, name: string, image: string) {
    if Removed(name, true) in events then Unfinished(after, name, image)
    else if Stopped(name, true) in events then
      name in before.containers
      && after.containers == before.containers[name := before.containers[name].(running := false)]
    else after.containers == before.containers
  }

  lemma StopKeeps(w: World, f: Fortune, name: string)
    ensures var r := Stop(w, f, name);
      && Follows(w, r.world, [Stopped(name, r.ok)]) && Elsewhere(w, r.world, name)
      && (r.ok ==> name in w.containers && r.world.containers == w.containers[name := w.containers[name].(running := false)])
      && (!r.ok ==> OnlyLogged(w, r.world))
  {
    if name in w.containers {
      AddedAside(w.containers, name, w.containers[name].(running := false));
    }
  }

  lemma SwapAdds(w: World, f: Fortune, name: string, image: string) returns (b: seq<Event>)
    ensures var r := Swap(w, f, name, image);
      Made(w, r, b, name, image) && (!r.ok ==> LeftBehind(w, r.world, b, name, image))
  {
    hide Stop, Remove, Attempt;
    StopKeeps(w, f, name);
    var stopped := Stop(w, f, name);
    RemoveKeeps(stopped.world, f, name);
    var removed := Remove(stopped.world, f, name);
    b := [Stopped(name, stopped.ok), Removed(name, removed.ok)];
    if removed.ok {
      var more := AttemptAdds(removed.world, f, name, image, 0);
      Joined(w, removed.world, Attempt(removed.world, f, name, image, 0), b, more, name, image);
      assert Removed(name, true) == (b + more)[1];
      b := b + more;
    } else {
      assert Removed(name, true) !in b;
      assert stopped.ok ==> Stopped(name, true) == b[0];
    }
  }

  lemma ReplaceAdds(w: World, f: Fortune, id: string, image: string) returns (b: seq<Event>)
    ensures var r := Replace(w, f, id, image);
      && Follows(w, r.world, b) && NoLooks(b) && r.world.images == w.images && r.world.clock == w.clock
      && (id !in w.names ==> !r.ok && r.world.containers == w.containers && NoneCompleted(b) && LastFailed(b))
      && (id in w.names ==> Made(w, r, b, w.names[id], image))
      && (id in w.names && !r.ok ==> LeftBehind(w, r.world, b, w.names[id], image))
  {
    hide Swap, Attempt;
    var asked := Ask(w, f, id in w.names);
    b := [Asked(asked.ok)];
    if asked.ok {
      var name := w.names[id];
      var more := SwapAdds(asked.world, f, name, image);
      var r := Swap(asked.world, f, name, image);
      Joined(w, asked.world, r, b, more, name, image);
      assert forall e: Event :: !e.Asked? ==> (e in b + more <==> e in more);
      b := b + more;
    }
  }

  lemma RecreateAdds(w: World, f: Fortune, place: Place, image: string, name: string, id: string) returns (b: seq<Event>)
    ensures var r := Recreate(w, f, place, image, name, id);
      && Follows(w, r.world, b) && NoLooks(b) && r.world.images == w.images && r.world.clock == w.clock
      && (r.ok ==> b != [] && Completed(b[|b| - 1]))
      && (!r.ok ==> NoneCompleted(b) && LastFailed(b))
      && (place.Service? && r.ok ==> image in w.images && RunsOn(r.world, name, w.images[image]))
      && (place.Service? && r.ok ==> b[|b| - 1] == Upped(name, image, w.images[image], true))
      && (place.Project? && r.ok ==> b[|b| - 1] == UppedAll(true))
      && (place.Standalone? && r.ok ==> id in w.names && Made(w, r, b, w.names[id], image))
      && (place.Standalone? && !r.ok && id in w.names ==> LeftBehind(w, r.world, b, w.names[id], image))
      && (place.Standalone? && !r.ok && id !in w.names ==> r.world.containers == w.containers)
  {
    hide Replace, LeftBehind;
    match place
    case Standalone => b := ReplaceAdds(w, f, id, image);
    case Service => b := [Upped(name, image, if Up(w, f, name, image).ok then w.images[image] else "", Up(w, f, name, image).ok)];
    case Project => b := [UppedAll(Of(w, f).ok)];
  }

  // ---- Waiting

  predicate LooksAt(events: seq<Event>, name: string) {
    forall e <- events :: e.Looked? && e.name == name
  }

  /** Only the last look can pass, and it decides. */
  lemma {:induction false} WaitAdds(w: World, f: Fortune, wanted: string, deadline: nat) returns (c: seq<Event>)
    ensures var r := Wait(w, f, wanted, deadline);
      && Follows(w, r.world, c) && LooksAt(c, wanted)
      && r.world.containers == w.containers && r.world.images == w.images && r.world.names == w.names
      && (r.ok ==> c != [] && c[|c| - 1] == Looked(wanted, Passing) && NoneHealthy(c[..|c| - 1]))
      && (r.ok ==> wanted in w.containers && w.containers[wanted].running)
      && (!r.ok ==> NoneHealthy(c)) && (!r.ok && w.clock < deadline ==> LastFailed(c))
    decreases deadline - w.clock
  {
    if w.clock >= deadline {
      c := [];
    } else {
      var (seen, next) := Look(w, f, wanted);
      c := [Looked(wanted, seen)];
      if !seen.Passing? && !seen.Unhealthy? {
        var later := Sleep(next, POLL_MS);
        var more := WaitAdds(later, f, wanted, deadline);
        assert more != [] ==> (c + more)[..|c + more| - 1] == c + more[..|more| - 1];
        c := c + more;
      }
    }
  }

  // ---- Rolling back

  lemma UpKeeps(w: World, f: Fortune, name: string, image: string)
    ensures var r := Up(w, f, name, image);
      && r.world.images == w.images
      && (r.ok ==> image in w.images && RunsOn(r.world, name, w.images[image]))
      && Follows(w, r.world, [Upped(name, image, if r.ok then w.images[image] else "", r.ok)])
  {
  }

  lemma RollbackStandaloneAdds(w: World, f: Fortune, name: string, id: string, image: string) returns (d: seq<Event>)
    ensures var r := RollbackStandalone(w, f, name, id, image);
      && Follows(w, r.world, d) && NoLooks(d) && r.world.images == w.images && (!r.ok ==> LastFailed(d))
      && (r.ok && name in w.containers ==> image in w.images && RunsOn(r.world, name, w.images[image]))
  {
    hide Replace, Swap;
    var listed := Ask(w, f, true);
    d := [Asked(listed.ok)];
    if listed.ok && name in w.containers {
      var asked := Ask(listed.world, f, true);
      d := d + [Asked(asked.ok)];
      if asked.ok {
        var more := SwapAdds(asked.world, f, name, image);
        d := d + more;
      }
    } else if listed.ok && id in w.names {
      var more := ReplaceAdds(listed.world, f, id, image);
      d := d + more;
    }
  }

  /** A rollback that goes through runs the previous digest, and moves the tag only by pulling the tag itself. */
  lemma RollbackAdds(w: World, f: Fortune, row: Row, place: Place, name: string, id: string) returns (d: seq<Event>)
    requires Valid(w)
    ensures var r := Rollback(w, f, row, place, name, id);
      && Follows(w, r.world, d) && NoLooks(d) && (!r.ok ==> LastFailed(d))
      && (r.ok && Pinnable(row.image, row.current)
          && (place.Service? || (place.Standalone? && Bare(name) in w.containers)) ==>
        RunsOn(r.world, Bare(name), row.current.value))
      && (Pinnable(row.image, row.current) && Pulled(row.image, true) !in d && row.image in w.images ==>
        row.image in r.world.images && r.world.images[row.image] == w.images[row.image])
  {
    hide PullEither, Up, RollbackStandalone, Valid;
    var image := PinnedOr(row.image, row.current);
    d := PullEitherAdds(w, f, image, row.image);
    var pulled := PullEither(w, f, image, row.image);
    if Pinnable(row.image, row.current) {
      PinnedNames(pulled.world, row.image, row.current);
    }
    if pulled.ok {
      var more;
      match place {
        case Service =>
          UpKeeps(pulled.world, f, Bare(name), image);
          more := [Upped(Bare(name), image,
            if Up(pulled.world, f, Bare(name), image).ok then pulled.world.images[image] else "",
            Up(pulled.world, f, Bare(name), image).ok)];
        case Project => more := [UppedAll(Of(pulled.world, f).ok)];
        case Standalone => more := RollbackStandaloneAdds(pulled.world, f, Bare(name), id, image);
      }
      d := d + more;
    }
  }
}
