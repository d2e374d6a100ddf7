/** The generation-guarded cache of whether authentication is on. */
module AuthCaches {
  import opened Text

  // ---- Whether authentication is on

  const FLAG_TTL_MS := 5000

  /** A stored flag and the step at which its read began. */
  datatype Flag = Flag(value: bool, at: nat, began: nat)

  /** A read of the settings: the generation it saw, when it began, and what it got. */
  datatype Read = Read(gen: nat, began: nat, got: Option<bool>)

  /** `cleared` and `written` are the steps of the last invalidation and of the last change of the setting. */
  datatype Gate = Gate(
    stored: bool,
    cache: Option<Flag>,
    generation: nat,
    reading: map<nat, Read>,
    cleared: nat,
    written: nat,
    step: nat,
    clock: nat)

  datatype Action =
    | Ask(request: nat)
    | Load(request: nat)
    | Finish(request: nat)
    | Toggle(value: bool)
    | Invalidate
    | Wait(ms: nat)

  predicate Possible(g: Gate, a: Action) {
    match a
    case Ask(request) => request !in g.reading
    case Load(request) => request in g.reading && g.reading[request].got.None?
    case Finish(request) => request in g.reading && g.reading[request].got.Some?
    case _ => true
  }

  predicate Hit(g: Gate) {
    g.cache.Some? && g.clock - g.cache.value.at < FLAG_TTL_MS
  }

  function Acted(g: Gate, a: Action): Gate
    requires Possible(g, a)
  {
    var t := g.(step := g.step + 1);
    match a
    case Ask(request) =>
      if Hit(g) then t else t.(reading := t.reading[request := Read(t.generation, t.step, None)])
    case Load(request) =>
      t.(reading := t.reading[request := t.reading[request].(got := Some(t.stored))])
    case Finish(request) =>
      var read := t.reading[request];
      var done := t.(reading := t.reading - {request});
      if read.gen != t.generation then done
      else done.(cache := Some(Flag(read.got.value, t.clock, read.began)))
    case Toggle(value) => t.(stored := value, written := t.step)
    case Invalidate => t.(cache := None, generation := t.generation + 1, cleared := t.step)
    case Wait(ms) => t.(clock := t.clock + ms)
  }

  predicate Starts(g: Gate) {
    g == Gate(g.stored, None, 0, map[], 0, 0, 0, g.clock)
  }

  predicate GateRun(states: seq<Gate>, actions: seq<Action>) {
    && |states| == |actions| + 1 && Starts(states[0])
    && forall i :: 0 <= i < |actions| ==> Possible(states[i], actions[i]) && states[i + 1] == Acted(states[i], actions[i])
  }

  /** A read belongs to the present generation exactly when it began after the last invalidation. */
  predicate ReadGood(g: Gate, r: Read) {
    && r.gen <= g.generation && r.began <= g.step
    && (r.gen == g.generation <==> r.began > g.cleared)
    && (r.got.Some? && g.written < r.began ==> r.got.value == g.stored)
  }

  predicate CacheGood(g: Gate) {
    g.cache.Some? ==>
      && g.cleared < g.cache.value.began <= g.step
      && (g.written < g.cache.value.began ==> g.cache.value.value == g.stored)
  }

  predicate GateGood(g: Gate) {
    && g.cleared <= g.step && g.written <= g.step && CacheGood(g)
    && forall k <- g.reading :: ReadGood(g, g.reading[k])
  }

  lemma ActionKeeps(g: Gate, a: Action)
    requires GateGood(g) && Possible(g, a)
    ensures GateGood(Acted(g, a))
  {
  }

  lemma {:induction false} GateKeeps(states: seq<Gate>, actions: seq<Action>, i: nat)
    requires GateRun(states, actions) && i < |states|
    ensures GateGood(states[i])
  {
    hide GateGood;
    if i > 0 {
      GateKeeps(states, actions, i - 1);
      ActionKeeps(states[i - 1], actions[i - 1]);
    } else {
      FirstGood(states[0]);
    }
  }

  lemma FirstGood(g: Gate)
    requires Starts(g)
    ensures GateGood(g)
  {
  }

  /** In every run a flag served from the cache was read by a read that began after the latest invalidation. */
  lemma ServedFlagIsRecent(states: seq<Gate>, actions: seq<Action>, i: nat)
    requires GateRun(states, actions) && i < |states| && Hit(states[i])
    ensures states[i].cleared < states[i].cache.value.began <= states[i].step
  {
    GateKeeps(states, actions, i);
  }

  /** When every change of the setting is followed by an invalidation, the cache holds the setting itself. */
  lemma ServedFlagIsStored(states: seq<Gate>, actions: seq<Action>, i: nat)
    requires GateRun(states, actions) && i < |states| && Hit(states[i])
    requires states[i].written <= states[i].cleared
    ensures states[i].cache.value.value == states[i].stored
  {
    GateKeeps(states, actions, i);
  }

  /** A finished read is stored exactly when nothing was invalidated since it began. */
  lemma StoredUnlessInvalidated(states: seq<Gate>, actions: seq<Action>, i: nat)
    requires GateRun(states, actions) && i < |actions| && actions[i].Finish?
    ensures var read := states[i].reading[actions[i].request];
      states[i + 1].cache == Some(Flag(read.got.value, states[i].clock, read.began)) <==> states[i].cleared < read.began
  {
    GateKeeps(states, actions, i);
    assert Possible(states[i], actions[i]) && states[i + 1] == Acted(states[i], actions[i]);
    var read := states[i].reading[actions[i].request];
    assert ReadGood(states[i], read);
  }

  /** A stored flag without the step at which its read began. */
  function Plain(flag: Option<Flag>): Option<(bool, nat)> {
    match flag
    case Some(f) => Some((f.value, f.at))
    case None => None
  }

  /** The module's variables and functions, as the machine has them. */
  class AuthGate {
    var cache: Option<(bool, nat)>
    var generation: nat

    ghost predicate Is(g: Gate)
      reads this
    {
      cache == Plain(g.cache) && generation == g.generation
    }

    constructor ()
      ensures cache == None && generation == 0
    {
      cache, generation := None, 0;
    }

    method Invalidate(ghost g: Gate)
      requires Is(g)
      modifies this
      ensures Is(Acted(g, Action.Invalidate))
    {
      cache := None;
      generation := generation + 1;
    }

    /** The first half: served from the cache, or a read begins under the present generation. */
    method Ask(now: nat, ghost g: Gate, ghost request: nat) returns (served: Option<bool>, gen: nat)
      requires Is(g) && now == g.clock && Possible(g, Action.Ask(request))
      ensures Is(Acted(g, Action.Ask(request)))
      ensures served == if Hit(g) then Some(g.cache.value.value) else None
      ensures served.None? ==> Acted(g, Action.Ask(request)).reading == g.reading[request := Read(gen, g.step + 1, None)]
    {
      if cache.Some? && now - cache.value.1 < FLAG_TTL_MS {
        return Some(cache.value.0), generation;
      }
      served, gen := None, generation;
    }

    /** The second half, after the setting was read. */
    method Finish(gen: nat, current: bool, now: nat, ghost g: Gate, ghost request: nat) returns (value: bool)
      requires Is(g) && now == g.clock && Possible(g, Action.Finish(request))
      requires g.reading[request].gen == gen && g.reading[request].got == Some(current)
      modifies this`cache
      ensures value == current && Is(Acted(g, Action.Finish(request)))
    {
      value := current;
      if gen != generation {
        return;
      }
      cache := Some((current, now));
    }
  }
}
