/** The cached session versions: what a request is accepted or refused on, and what clearing achieves. */
module SessionCache {
  import opened Text

  const SESSION_TTL_MS := 2000

  /** A row as the table holds it. */
  datatype User = User(role: string, version: int)

  /** A cached row: the clock at its request's start, and the step at which the table was read. */
  datatype Session = Session(at: nat, user: User, loaded: nat)

  datatype Waiting = Waiting(id: string, version: int, at: nat, got: Option<Option<Session>>)

  datatype Guard = Guard(
    users: map<string, User>,
    cache: map<string, Session>,
    waiting: map<nat, Waiting>,
    clock: nat)

  /** `version` is the one in the session token, 0 when it has none. */
  datatype Move =
    | Check(request: nat, id: string, version: int)
    | LoadUser(request: nat)
    | Answer(request: nat)
    | Update(id: string, user: Option<User>)
    | Forget(id: string)
    | ForgetAll
    | Pass(ms: nat)

  datatype Verdict = Pending | Refused | Accepted(role: string)

  predicate CanMove(g: Guard, m: Move) {
    match m
    case Check(request, _, _) => request !in g.waiting
    case LoadUser(request) => request in g.waiting && g.waiting[request].got.None?
    case Answer(request) => request in g.waiting && g.waiting[request].got.Some?
    case _ => true
  }

  predicate Usable(g: Guard, id: string) {
    id in g.cache && g.clock - g.cache[id].at < SESSION_TTL_MS
  }

  function Judge(cache: map<string, Session>, id: string, version: int): (map<string, Session>, Verdict)
    requires id in cache
  {
    if cache[id].user.version != version then (cache - {id}, Refused) else (cache, Accepted(cache[id].user.role))
  }

  function Moved(g: Guard, m: Move, step: nat): (Guard, Verdict)
    requires CanMove(g, m)
  {
    match m
    case Check(request, id, version) =>
      if Usable(g, id) then
        var (cache, verdict) := Judge(g.cache, id, version);
        (g.(cache := cache), verdict)
      else (g.(waiting := g.waiting[request := Waiting(id, version, g.clock, None)]), Pending)
    case LoadUser(request) =>
      var w := g.waiting[request];
      var got := if w.id in g.users then Some(Session(w.at, g.users[w.id], step)) else None;
      (g.(waiting := g.waiting[request := w.(got := Some(got))]), Pending)
    case Answer(request) =>
      var w := g.waiting[request];
      var rest := g.(waiting := g.waiting - {request});
      (match w.got.value
       case None => (rest.(cache := g.cache - {w.id}), Refused)
       case Some(session) =>
         var (cache, verdict) := Judge(g.cache[w.id := session], w.id, w.version);
         (rest.(cache := cache), verdict))
    case Update(id, user) =>
      (g.(users := if user.Some? then g.users[id := user.value] else g.users - {id}), Pending)
    case Forget(id) => (g.(cache := g.cache - {id}), Pending)
    case ForgetAll => (g.(cache := map[]), Pending)
    case Pass(ms) => (g.(clock := g.clock + ms), Pending)
  }

  predicate GuardRun(states: seq<Guard>, moves: seq<Move>) {
    && |states| == |moves| + 1
    && states[0].cache == map[] && states[0].waiting == map[]
    && forall i :: 0 <= i < |moves| ==> CanMove(states[i], moves[i]) && states[i + 1] == Moved(states[i], moves[i], i).0
  }

  /** The table held this row at the step of the load, no earlier than the row's clock. */
  predicate Held(states: seq<Guard>, i: nat, id: string, s: Session) {
    && s.loaded < i && s.loaded < |states|
    && id in states[s.loaded].users && states[s.loaded].users[id] == s.user
    && s.at <= states[s.loaded].clock
  }

  /** The table had no such user at some step, no earlier than the clock reading. */
  predicate Absent(states: seq<Guard>, i: nat, id: string, at: nat) {
    exists j :: 0 <= j < i && j < |states| && id !in states[j].users && at <= states[j].clock
  }

  predicate SessionsHeld(states: seq<Guard>, i: nat)
    requires i < |states|
  {
    && (forall id <- states[i].cache :: Held(states, i, id, states[i].cache[id]))
    && forall k <- states[i].waiting :: WaitingHeld(states, i, states[i].waiting[k])
  }

  predicate WaitingHeld(states: seq<Guard>, i: nat, w: Waiting)
    requires i < |states|
  {
    && w.at <= states[i].clock
    && (w.got.Some? && w.got.value.Some? ==>
      w.got.value.value.at == w.at && Held(states, i, w.id, w.got.value.value))
    && (w.got.Some? && w.got.value.None? ==> Absent(states, i, w.id, w.at))
  }

  lemma AbsentLater(states: seq<Guard>, i: nat, id: string, at: nat)
    requires Absent(states, i, id, at)
    ensures Absent(states, i + 1, id, at)
  {
    var j :| 0 <= j < i && j < |states| && id !in states[j].users && at <= states[j].clock;
    assert 0 <= j < i + 1;
  }

  lemma HeldLater(states: seq<Guard>, i: nat, id: string, s: Session)
    requires Held(states, i, id, s)
    ensures Held(states, i + 1, id, s)
  {
  }

  lemma MoveKeepsCache(states: seq<Guard>, moves: seq<Move>, i: nat, id: string)
    requires GuardRun(states, moves) && i < |moves| && SessionsHeld(states, i)
    requires id in states[i + 1].cache
    ensures Held(states, i + 1, id, states[i + 1].cache[id])
  {
    hide Held;
    var g, n := states[i], states[i + 1];
    assert CanMove(g, moves[i]) && n == Moved(g, moves[i], i).0;
    if id in g.cache && n.cache[id] == g.cache[id] {
      HeldLater(states, i, id, g.cache[id]);
    } else {
      var w := g.waiting[moves[i].request];
      assert WaitingHeld(states, i, w);
      HeldLater(states, i, id, n.cache[id]);
    }
  }

  lemma MoveKeepsWaiting(states: seq<Guard>, moves: seq<Move>, i: nat, k: nat)
    requires GuardRun(states, moves) && i < |moves| && SessionsHeld(states, i)
    requires k in states[i + 1].waiting
    ensures WaitingHeld(states, i + 1, states[i + 1].waiting[k])
  {
    hide Judge, Held, Absent;
    var g, n := states[i], states[i + 1];
    assert CanMove(g, moves[i]) && n == Moved(g, moves[i], i).0;
    if k in g.waiting {
      var w := g.waiting[k];
      assert WaitingHeld(states, i, w);
      if w.got.Some? && w.got.value.Some? {
        HeldLater(states, i, w.id, w.got.value.value);
      } else if w.got.Some? {
        AbsentLater(states, i, w.id, w.at);
      }
    }
    if moves[i].LoadUser? && k == moves[i].request {
      LoadIsHeld(states, i, n.waiting[k]);
    }
  }

  lemma LoadIsHeld(states: seq<Guard>, i: nat, w: Waiting)
    requires i + 1 < |states| && w.at <= states[i].clock <= states[i + 1].clock && w.got.Some?
    requires w.got.value == if w.id in states[i].users then Some(Session(w.at, states[i].users[w.id], i)) else None
    ensures WaitingHeld(states, i + 1, w)
  {
  }

  lemma MoveKeepsHeld(states: seq<Guard>, moves: seq<Move>, i: nat)
    requires GuardRun(states, moves) && i < |moves| && SessionsHeld(states, i)
    ensures SessionsHeld(states, i + 1)
  {
    hide Held, WaitingHeld;
    assert |states| == |moves| + 1;
    var n := states[i + 1];
    forall id | id in n.cache
      ensures Held(states, i + 1, id, n.cache[id])
    {
      MoveKeepsCache(states, moves, i, id);
    }
    forall k | k in n.waiting
      ensures WaitingHeld(states, i + 1, n.waiting[k])
    {
      MoveKeepsWaiting(states, moves, i, k);
    }
  }

  lemma {:induction false} AllHeld(states: seq<Guard>, moves: seq<Move>, i: nat)
    requires GuardRun(states, moves) && i < |states|
    ensures SessionsHeld(states, i)
  {
    if i > 0 {
      AllHeld(states, moves, i - 1);
      MoveKeepsHeld(states, moves, i - 1);
    }
  }

  /** The clock reading of the request that a move decides. */
  function ClockOf(g: Guard, m: Move): nat
    requires CanMove(g, m)
  {
    if m.Answer? then g.waiting[m.request].at else g.clock
  }

  function IdOf(g: Guard, m: Move): string
    requires CanMove(g, m) && (m.Answer? || m.Check?)
  {
    if m.Answer? then g.waiting[m.request].id else m.id
  }

  function VersionOf(g: Guard, m: Move): int
    requires CanMove(g, m) && (m.Answer? || m.Check?)
  {
    if m.Answer? then g.waiting[m.request].version else m.version
  }

  /**
   * In every run an accepted session carries a version, and gets a role, that the table held at some step `s`,
   * less than two seconds before the request read the clock or later.
   */
  lemma AcceptedVersionWasHeld(states: seq<Guard>, moves: seq<Move>, i: nat) returns (s: nat)
    requires GuardRun(states, moves) && i < |moves|
    requires Moved(states[i], moves[i], i).1.Accepted?
    ensures moves[i].Check? || moves[i].Answer?
    ensures s <= i && states[s].clock > ClockOf(states[i], moves[i]) - SESSION_TTL_MS
    ensures var id := IdOf(states[i], moves[i]);
      && id in states[s].users
      && states[s].users[id].version == VersionOf(states[i], moves[i])
      && states[s].users[id].role == Moved(states[i], moves[i], i).1.role
  {
    AllHeld(states, moves, i);
    var g := states[i];
    if moves[i].Check? {
      assert Held(states, i, moves[i].id, g.cache[moves[i].id]);
      s := g.cache[moves[i].id].loaded;
    } else {
      var w := g.waiting[moves[i].request];
      assert WaitingHeld(states, i, w);
      s := w.got.value.value.loaded;
    }
  }

  /** And a refused one carries another version than the table held, or a user it did not hold, at such a step. */
  lemma RefusedVersionDiffers(states: seq<Guard>, moves: seq<Move>, i: nat) returns (s: nat)
    requires GuardRun(states, moves) && i < |moves|
    requires Moved(states[i], moves[i], i).1.Refused?
    ensures moves[i].Check? || moves[i].Answer?
    ensures s <= i && states[s].clock > ClockOf(states[i], moves[i]) - SESSION_TTL_MS
    ensures var id := IdOf(states[i], moves[i]);
      id in states[s].users ==> states[s].users[id].version != VersionOf(states[i], moves[i])
  {
    AllHeld(states, moves, i);
    var g := states[i];
    if moves[i].Check? {
      assert Held(states, i, moves[i].id, g.cache[moves[i].id]);
      s := g.cache[moves[i].id].loaded;
    } else {
      var w := g.waiting[moves[i].request];
      assert WaitingHeld(states, i, w);
      if w.got.value.Some? {
        s := w.got.value.value.loaded;
      } else {
        s :| 0 <= s < i && s < |states| && w.id !in states[s].users && w.at <= states[s].clock;
      }
    }
  }

  // ---- What clearing the cache achieves

  predicate Clears(m: Move, id: string) {
    m.ForgetAll? || m == Forget(id)
  }

  predicate Holding(g: Guard, id: string, version: int) {
    id in g.users && g.users[id].version == version
  }

  /** A request under way has read a version that matches its token and that the table no longer holds. */
  predicate StaleRequest(g: Guard, id: string, k: nat) {
    && k in g.waiting && g.waiting[k].id == id && g.waiting[k].got.Some? && g.waiting[k].got.value.Some?
    && g.waiting[k].got.value.value.user.version == g.waiting[k].version
    && !Holding(g, id, g.waiting[k].version)
  }

  predicate HeldSince(states: seq<Guard>, from: nat, i: nat, id: string, version: int) {
    exists s: nat :: from <= s <= i && s < |states| && Holding(states[s], id, version)
  }

  /** From the clearing on, only versions held since then can be accepted. */
  predicate Renewed(states: seq<Guard>, from: nat, i: nat, id: string)
    requires i < |states|
  {
    && (id in states[i].cache ==> HeldSince(states, from, i, id, states[i].cache[id].user.version))
    && forall k <- states[i].waiting :: WaitsRenewed(states, from, i, id, states[i].waiting[k])
  }

  predicate WaitsRenewed(states: seq<Guard>, from: nat, i: nat, id: string, w: Waiting) {
    w.id == id && w.got.Some? && w.got.value.Some? && w.got.value.value.user.version == w.version ==>
      HeldSince(states, from, i, id, w.version)
  }

  lemma HeldSinceLater(states: seq<Guard>, from: nat, i: nat, id: string, version: int)
    requires HeldSince(states, from, i, id, version)
    ensures HeldSince(states, from, i + 1, id, version)
  {
    var s: nat :| from <= s <= i && s < |states| && Holding(states[s], id, version);
    assert from <= s <= i + 1;
  }

  lemma HeldNow(states: seq<Guard>, from: nat, i: nat, id: string, version: int)
    requires from <= i < |states| && Holding(states[i], id, version)
    ensures HeldSince(states, from, i, id, version)
  {
  }

  lemma ClearingRenews(states: seq<Guard>, moves: seq<Move>, f: nat, id: string)
    requires GuardRun(states, moves) && f < |moves| && Clears(moves[f], id)
    requires forall k: nat :: !StaleRequest(states[f], id, k)
    ensures Renewed(states, f, f + 1, id)
  {
    hide Judge, HeldSince;
    var g, n := states[f], states[f + 1];
    assert n == Moved(g, moves[f], f).0;
    forall k | k in n.waiting
      ensures WaitsRenewed(states, f, f + 1, id, n.waiting[k])
    {
      assert !StaleRequest(g, id, k);
      var w := n.waiting[k];
      if Holding(g, id, w.version) {
        HeldNow(states, f, f, id, w.version);
        HeldSinceLater(states, f, f, id, w.version);
      }
    }
  }

  lemma MoveRenewsCache(states: seq<Guard>, moves: seq<Move>, f: nat, i: nat, id: string)
    requires GuardRun(states, moves) && f <= i < |moves| && Renewed(states, f, i, id) && id in states[i + 1].cache
    ensures HeldSince(states, f, i + 1, id, states[i + 1].cache[id].user.version)
  {
    hide HeldSince;
    var g, n := states[i], states[i + 1];
    assert CanMove(g, moves[i]) && n == Moved(g, moves[i], i).0;
    if id in g.cache && n.cache[id] == g.cache[id] {
      HeldSinceLater(states, f, i, id, g.cache[id].user.version);
    } else {
      var w := g.waiting[moves[i].request];
      assert WaitsRenewed(states, f, i, id, w);
      HeldSinceLater(states, f, i, id, w.version);
    }
  }

  lemma MoveRenewsWaiting(states: seq<Guard>, moves: seq<Move>, f: nat, i: nat, id: string, k: nat)
    requires GuardRun(states, moves) && f <= i < |moves| && Renewed(states, f, i, id) && k in states[i + 1].waiting
    ensures WaitsRenewed(states, f, i + 1, id, states[i + 1].waiting[k])
  {
    hide HeldSince, Judge;
    var g, n := states[i], states[i + 1];
    assert CanMove(g, moves[i]) && n == Moved(g, moves[i], i).0;
    var w := n.waiting[k];
    if k in g.waiting && w == g.waiting[k] {
      assert WaitsRenewed(states, f, i, id, w);
      if HeldSince(states, f, i, id, w.version) {
        HeldSinceLater(states, f, i, id, w.version);
      }
    } else if moves[i].LoadUser? && w.id == id && Holding(g, id, w.version) {
      HeldNow(states, f, i, id, w.version);
      HeldSinceLater(states, f, i, id, w.version);
    }
  }

  lemma {:induction false} StaysRenewed(states: seq<Guard>, moves: seq<Move>, f: nat, i: nat, id: string)
    requires GuardRun(states, moves) && f < |moves| && Clears(moves[f], id) && f < i < |states|
    requires forall k: nat :: !StaleRequest(states[f], id, k)
    ensures Renewed(states, f, i, id)
    decreases i
  {
    hide WaitsRenewed, HeldSince, StaleRequest;
    if i == f + 1 {
      ClearingRenews(states, moves, f, id);
    } else {
      StaysRenewed(states, moves, f, i - 1, id);
      var n := states[i];
      if id in n.cache {
        MoveRenewsCache(states, moves, f, i - 1, id);
      }
      forall k | k in n.waiting
        ensures WaitsRenewed(states, f, i, id, n.waiting[k])
      {
        MoveRenewsWaiting(states, moves, f, i - 1, id, k);
      }
    }
  }

  /** A later acceptance of this user carries a version that the table has not held since the clearing. */
  predicate AcceptsRevoked(states: seq<Guard>, moves: seq<Move>, f: nat, i: nat, id: string) {
    && f < i < |moves| && i < |states| && CanMove(states[i], moves[i])
    && (moves[i].Check? || moves[i].Answer?) && IdOf(states[i], moves[i]) == id
    && Moved(states[i], moves[i], i).1.Accepted? && !HeldSince(states, f, i, id, VersionOf(states[i], moves[i]))
  }

  /** In every run: without such a request at the clearing, every later acceptance carries a version held since. */
  lemma ClearingEndsRevoked(states: seq<Guard>, moves: seq<Move>, f: nat, i: nat, id: string)
    requires GuardRun(states, moves) && f < |moves| && Clears(moves[f], id)
    requires forall k: nat :: !StaleRequest(states[f], id, k)
    ensures !AcceptsRevoked(states, moves, f, i, id)
  {
    hide HeldSince, StaleRequest;
    if f < i < |moves| {
      StaysRenewed(states, moves, f, i, id);
      if moves[i].Answer? && CanMove(states[i], moves[i]) {
        assert WaitsRenewed(states, f, i, id, states[i].waiting[moves[i].request]);
      }
    }
  }

  /** From any state with such a request: its answer, right after the clearing, accepts the revoked version. */
  lemma StaleRequestIsAccepted(states: seq<Guard>, moves: seq<Move>, id: string, k: nat)
    requires GuardRun(states, moves) && moves != [] && Clears(moves[|moves| - 1], id)
    requires StaleRequest(states[|moves| - 1], id, k)
    ensures var next := Moved(states[|moves|], Answer(k), |moves|).0;
      && GuardRun(states + [next], moves + [Answer(k)])
      && AcceptsRevoked(states + [next], moves + [Answer(k)], |moves| - 1, |moves|, id)
  {
    var f := |moves| - 1;
    assert states[f + 1] == Moved(states[f], moves[f], f).0;
    var next := Moved(states[|moves|], Answer(k), |moves|).0;
    assert GuardRun(states + [next], moves + [Answer(k)]);
    assert forall s: nat :: f <= s <= |moves| ==> (states + [next])[s].users == states[f].users;
  }

  predicate Continues(states: seq<Guard>, moves: seq<Move>, all: seq<Guard>, allMoves: seq<Move>) {
    states <= all && moves <= allMoves && GuardRun(all, allMoves)
  }

  ghost predicate CanAcceptRevoked(states: seq<Guard>, moves: seq<Move>, f: nat, id: string) {
    exists all: seq<Guard>, allMoves: seq<Move>, i: nat ::
      Continues(states, moves, all, allMoves) && AcceptsRevoked(all, allMoves, f, i, id)
  }

  /** After a clearing a revoked version can still be accepted exactly when such a request was under way. */
  lemma ClearingReachesIff(states: seq<Guard>, moves: seq<Move>, f: nat, id: string)
    requires GuardRun(states, moves) && |moves| == f + 1 && Clears(moves[f], id)
    ensures CanAcceptRevoked(states, moves, f, id) <==> exists k: nat :: StaleRequest(states[f], id, k)
  {
    hide StaleRequest, AcceptsRevoked;
    if k: nat :| StaleRequest(states[f], id, k) {
      StaleRequestIsAccepted(states, moves, id, k);
      var next := Moved(states[f + 1], Answer(k), f + 1).0;
      assert Continues(states, moves, states + [next], moves + [Answer(k)]);
    } else {
      forall all: seq<Guard>, allMoves: seq<Move>, i: nat | Continues(states, moves, all, allMoves)
        ensures !AcceptsRevoked(all, allMoves, f, i, id)
      {
        assert all[f] == states[f] && allMoves[f] == moves[f];
        ClearingEndsRevoked(all, allMoves, f, i, id);
      }
    }
  }

  /** Such requests occur: a revoked version is accepted after the clearing, and once more from the cache. */
  lemma ClearMissesReadsUnderWay(id: string, role: string, version: int)
    returns (states: seq<Guard>, moves: seq<Move>)
    ensures GuardRun(states, moves) && |moves| == 6
    ensures moves[2] == Update(id, Some(User(role, version + 1))) && moves[3] == Forget(id)
    ensures moves[4] == Answer(0) && Moved(states[4], moves[4], 4).1 == Accepted(role)
    ensures moves[5] == Check(1, id, version) && Moved(states[5], moves[5], 5).1 == Accepted(role)
  {
    var g0 := Guard(map[id := User(role, version)], map[], map[], 0);
    moves := [Check(0, id, version), LoadUser(0), Update(id, Some(User(role, version + 1))), Forget(id),
      Answer(0), Check(1, id, version)];
    var g1 := Moved(g0, moves[0], 0).0;
    var g2 := Moved(g1, moves[1], 1).0;
    var g3 := Moved(g2, moves[2], 2).0;
    var g4 := Moved(g3, moves[3], 3).0;
    var g5 := Moved(g4, moves[4], 4).0;
    states := [g0, g1, g2, g3, g4, g5, Moved(g5, moves[5], 5).0];
  }

  // ---- The module-level map

  /** The cached rows without the step of their load. */
  function PlainRows(cache: map<string, Session>): map<string, (nat, User)> {
    map id | id in cache :: (cache[id].at, cache[id].user)
  }

  /** The module's map and functions, as the machine has them. */
  class SessionGuard {
    var cache: map<string, (nat, User)>

    ghost predicate Is(g: Guard)
      reads this
    {
      cache == PlainRows(g.cache)
    }

    constructor ()
      ensures cache == map[]
    {
      cache := map[];
    }

    /** `clearSessionGuardCache` */
    method Clear(id: Option<string>, ghost g: Guard, ghost step: nat)
      requires Is(g)
      modifies this
      ensures Is(Moved(g, if id.Some? then Forget(id.value) else ForgetAll, step).0)
    {
      if id.Some? {
        cache := cache - {id.value};
      } else {
        cache := map[];
      }
    }

    /** The comparison at the end of `assertFreshSession`. */
    method Compare(id: string, version: int) returns (verdict: Verdict)
      requires id in cache
      modifies this
      ensures verdict == if old(cache)[id].1.version != version then Refused else Accepted(old(cache)[id].1.role)
      ensures cache == if verdict.Refused? then old(cache) - {id} else old(cache)
    {
      var user := cache[id].1;
      if version != user.version {
        cache := cache - {id};
        return Refused;
      }
      verdict := Accepted(user.role);
    }

    /** The first half of `assertFreshSession`: decided from the cache, or the table is asked. */
    method Check(id: string, version: int, now: nat, ghost g: Guard, ghost request: nat, ghost step: nat)
      returns (verdict: Verdict)
      requires Is(g) && now == g.clock && CanMove(g, Move.Check(request, id, version))
      modifies this
      ensures Is(Moved(g, Move.Check(request, id, version), step).0)
      ensures verdict == Moved(g, Move.Check(request, id, version), step).1
    {
      if id !in cache || now - cache[id].0 >= SESSION_TTL_MS {
        return Pending;
      }
      verdict := Compare(id, version);
    }

    /** The second half, with the row the table gave. */
    method Answer(id: string, version: int, at: nat, row: Option<User>, ghost g: Guard, ghost request: nat, ghost step: nat)
      returns (verdict: Verdict)
      requires Is(g) && CanMove(g, Move.Answer(request)) && Asked(g.waiting[request], id, version, at, row)
      modifies this
      ensures Is(Moved(g, Move.Answer(request), step).0)
      ensures verdict == Moved(g, Move.Answer(request), step).1
    {
      if row.None? {
        cache := cache - {id};
        return Refused;
      }
      cache := cache[id := (at, row.value)];
      verdict := Compare(id, version);
    }
  }

  /** The request the machine has, seen from the code. */
  predicate Asked(w: Waiting, id: string, version: int, at: nat, row: Option<User>) {
    && w.id == id && w.version == version && w.at == at && w.got.Some?
    && (row.None? <==> w.got.value.None?)
    && (row.Some? && w.got.value.Some? ==> w.got.value.value.user == row.value && w.got.value.value.at == at)
  }
}
