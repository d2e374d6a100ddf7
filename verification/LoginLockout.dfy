/** Failed-login counters per address and per account. Times are milliseconds. */
module LoginLockout {
  import opened Text

  datatype LockState = LockState(failures: nat, lockedUntil: nat, windowStartedAt: nat)

  const MAX_FAILURES := 5
  const LOCK_MS: nat := 15 * 60 * 1000
  const FAILURE_WINDOW_MS: nat := 15 * 60 * 1000

  type Locks = map<string, LockState>

  function AddressKey(ip: string, email: string): string {
    ip + "::" + Lower(email)
  }

  function AccountKey(email: string): string {
    "acct::" + Lower(Trim(email))
  }

  function StateOf(locks: Locks, key: string): Option<LockState> {
    if key in locks then Some(locks[key]) else None
  }

  predicate Allowed(locks: Locks, key: string, now: nat) {
    key in locks ==> locks[key].lockedUntil <= now
  }

  predicate Expired(prev: Option<LockState>, now: nat) {
    || prev.None?
    || (prev.value.lockedUntil > 0 && prev.value.lockedUntil < now)
    || now - prev.value.windowStartedAt > FAILURE_WINDOW_MS
  }

  function Recorded(prev: Option<LockState>, now: nat): LockState {
    if Expired(prev, now) then LockState(1, 0, now)
    else
      var failures := prev.value.failures + 1;
      LockState(failures, if failures >= MAX_FAILURES then now + LOCK_MS else 0, prev.value.windowStartedAt)
  }

  function Record(locks: Locks, key: string, now: nat): Locks {
    locks[key := Recorded(StateOf(locks, key), now)]
  }

  // ---- Login attempts, check and record in one step

  datatype Attempt = Attempt(ip: string, email: string, now: nat, correct: bool)

  datatype Outcome = Refused | Failed | Entered

  function Outcomes(locks: Locks, a: Attempt): Outcome {
    if !Allowed(locks, AddressKey(a.ip, a.email), a.now) || !Allowed(locks, AccountKey(a.email), a.now) then Refused
    else if a.correct then Entered
    else Failed
  }

  function After(locks: Locks, a: Attempt): Locks {
    match Outcomes(locks, a)
    case Refused => locks
    case Entered => locks - {AddressKey(a.ip, a.email)} - {AccountKey(a.email)}
    case Failed => Record(Record(locks, AddressKey(a.ip, a.email), a.now), AccountKey(a.email), a.now)
  }

  function RunAll(locks: Locks, attempts: seq<Attempt>): Locks {
    if attempts == [] then locks else After(RunAll(locks, attempts[..|attempts| - 1]), attempts[|attempts| - 1])
  }

  /** The failures an account key recorded since its last successful login. */
  function Log(locks: Locks, attempts: seq<Attempt>, key: string): seq<nat> {
    if attempts == [] then []
    else
      var before, a := attempts[..|attempts| - 1], attempts[|attempts| - 1];
      var log := Log(locks, before, key);
      if AccountKey(a.email) != key then log
      else
        match Outcomes(RunAll(locks, before), a)
        case Refused => log
        case Entered => []
        case Failed => log + [a.now]
  }

  /** Addresses as the server sees them; none starts like an account key. */
  predicate Plausible(attempts: seq<Attempt>) {
    && (forall i :: 0 <= i < |attempts| ==> !("acct" <= attempts[i].ip))
    && (forall i, j :: 0 <= i < j < |attempts| ==> attempts[i].now <= attempts[j].now)
  }

  /** A plausible address never makes an account key. */
  lemma NotAnAccount(ip: string, email: string, key: string)
    requires !("acct" <= ip) && "acct::" <= key
    ensures AddressKey(ip, email) != key
  {
    var tail := "::" + Lower(email);
    AddressPrefix(ip, tail);
    assert "acct" <= key;
  }

  lemma AddressPrefix(ip: string, tail: string)
    requires !("acct" <= ip) && tail != "" && tail[0] == ':'
    ensures !("acct" <= ip + tail)
  {
    if |ip| >= 4 {
      assert (ip + tail)[..4] == ip[..4];
    } else {
      assert (ip + tail)[|ip|] == ':';
    }
  }

  lemma KeysDiffer(ip: string, email: string, other: string)
    requires !("acct" <= ip)
    ensures AddressKey(ip, email) != AccountKey(other)
  {
    NotAnAccount(ip, email, AccountKey(other));
  }

  // ---- At most eight failures in any window

  /** The last `n` entries of a log. */
  function Last(log: seq<nat>, n: nat): seq<nat>
    requires n <= |log|
  {
    log[|log| - n..]
  }

  predicate Sorted(log: seq<nat>) {
    forall i, j :: 0 <= i < j < |log| ==> log[i] <= log[j]
  }

  /** Any nine successive failures span at least a window. */
  predicate NineApart(log: seq<nat>) {
    forall i :: 0 <= i && i + 8 < |log| ==> log[i] + FAILURE_WINDOW_MS <= log[i + 8]
  }

  /** What the counter knows of the log: the failures of its window, and that at most three earlier
      ones are younger than one window before its start. */
  predicate Tracks(state: Option<LockState>, log: seq<nat>) {
    match state
    case None => log == []
    case Some(st) =>
      var n, f, s := |log|, st.failures, st.windowStartedAt;
      && 1 <= f <= 6 && f <= n && log[n - f] == s
      && (n - f >= 4 ==> log[n - f - 4] + FAILURE_WINDOW_MS <= s)
      && log[n - 1] <= s + FAILURE_WINDOW_MS
      && (f < 5 ==> st.lockedUntil == 0)
      && (f >= 5 ==> st.lockedUntil == log[n - 1] + LOCK_MS)
      && (f == 6 ==> log[n - 1] == s + FAILURE_WINDOW_MS)
  }

  /** One more recorded failure keeps all of it. */
  lemma RecordKeeps(state: Option<LockState>, log: seq<nat>, now: nat)
    requires Sorted(log) && NineApart(log) && Tracks(state, log)
    requires log != [] ==> log[|log| - 1] <= now
    requires state.Some? ==> state.value.lockedUntil <= now
    ensures Sorted(log + [now]) && NineApart(log + [now]) && Tracks(Some(Recorded(state, now)), log + [now])
  {
    var n := |log|;
    if n >= 8 && state.Some? {
      var f := state.value.failures;
      assert log[n - 8] <= log[n - f];
      if n - f >= 4 && n - 8 <= n - f - 4 {
        assert log[n - 8] <= log[n - f - 4];
      }
    }
  }

  predicate Good(locks: Locks, key: string, log: seq<nat>, now: nat) {
    && Sorted(log) && NineApart(log) && Tracks(StateOf(locks, key), log)
    && (log != [] ==> log[|log| - 1] <= now)
  }

  lemma AttemptKeeps(locks: Locks, a: Attempt, key: string, log: seq<nat>, since: nat)
    requires Good(locks, key, log, since) && since <= a.now && !("acct" <= a.ip) && "acct::" <= key
    ensures var next := if AccountKey(a.email) != key then log
                        else match Outcomes(locks, a)
                             case Refused => log
                             case Entered => []
                             case Failed => log + [a.now];
            Good(After(locks, a), key, next, a.now)
  {
    hide AddressKey, AccountKey, Sorted, NineApart, Tracks, Recorded;
    KeysDiffer(a.ip, a.email, a.email);
    NotAnAccount(a.ip, a.email, key);
    if AccountKey(a.email) == key {
      match Outcomes(locks, a)
      case Failed => RecordKeeps(StateOf(locks, key), log, a.now);
      case Entered => EmptyIsGood();
      case Refused =>
    }
  }

  lemma EmptyIsGood()
    ensures Sorted([]) && NineApart([]) && Tracks(None, [])
  {
  }

  lemma {:induction false} RunKeeps(attempts: seq<Attempt>, key: string)
    requires Plausible(attempts) && "acct::" <= key
    ensures Good(RunAll(map[], attempts), key, Log(map[], attempts, key),
                 if attempts == [] then 0 else attempts[|attempts| - 1].now)
  {
    if attempts != [] {
      var before, a := attempts[..|attempts| - 1], attempts[|attempts| - 1];
      RunKeeps(before, key);
      AttemptKeeps(RunAll(map[], before), a, key, Log(map[], before, key),
                   if before == [] then 0 else before[|before| - 1].now);
    }
  }

  /** How many entries fall into the half-open interval. */
  function Within(log: seq<nat>, from: nat, to: nat): nat {
    if log == [] then 0
    else Within(log[..|log| - 1], from, to) + (if from <= log[|log| - 1] < to then 1 else 0)
  }

  lemma {:induction false} WithinBound(log: seq<nat>, from: nat, to: nat)
    requires Sorted(log) && NineApart(log) && to <= from + FAILURE_WINDOW_MS
    ensures Within(log, from, to) <= 8
  {
    if |log| > 8 {
      var last := log[|log| - 1];
      if from <= last < to {
        FewRecent(log[..|log| - 1], from, to, 8);
      } else {
        WithinBound(log[..|log| - 1], from, to);
      }
    } else {
      AtMostLength(log, from, to);
    }
  }

  lemma {:induction false} AtMostLength(log: seq<nat>, from: nat, to: nat)
    ensures Within(log, from, to) <= |log|
  {
    if log != [] {
      AtMostLength(log[..|log| - 1], from, to);
    }
  }

  /** When the `k`th entry from the end lies before the interval, fewer than `k` lie in it. */
  lemma {:induction false} FewRecent(log: seq<nat>, from: nat, to: nat, k: nat)
    requires Sorted(log) && 1 <= k <= |log| && log[|log| - k] < from
    ensures Within(log, from, to) < k
  {
    if k == 1 {
      NoneRecent(log, from, to);
    } else {
      FewRecent(log[..|log| - 1], from, to, k - 1);
    }
  }

  lemma {:induction false} NoneRecent(log: seq<nat>, from: nat, to: nat)
    requires Sorted(log) && (log != [] ==> log[|log| - 1] < from)
    ensures Within(log, from, to) == 0
  {
    if log != [] {
      assert |log| > 1 ==> log[|log| - 2] <= log[|log| - 1];
      NoneRecent(log[..|log| - 1], from, to);
    }
  }

  /** In every run, any half-open 15-minute interval without a successful login on an account holds at
      most eight recorded failures of that account, whatever addresses they come from. */
  lemma AtMostEightFailures(attempts: seq<Attempt>, email: string, from: nat)
    requires Plausible(attempts)
    ensures Within(Log(map[], attempts, AccountKey(email)), from, from + FAILURE_WINDOW_MS) <= 8
  {
    RunKeeps(attempts, AccountKey(email));
    WithinBound(Log(map[], attempts, AccountKey(email)), from, from + FAILURE_WINDOW_MS);
  }

  /** The map after every failure of one address on one account: both keys hold the same counter. */
  function Both(ip: string, email: string, st: LockState): Locks {
    map[AddressKey(ip, email) := st, AccountKey(email) := st]
  }

  /** One failing attempt of that address on that account after the other. */
  function Failing(ip: string, email: string, times: seq<nat>): seq<Attempt> {
    seq(|times|, i requires 0 <= i < |times| => Attempt(ip, email, times[i], false))
  }

  /** These attempts have all been recorded, and have left this counter. */
  predicate Leaves(ip: string, email: string, times: seq<nat>, st: LockState) {
    && RunAll(map[], Failing(ip, email, times)) == Both(ip, email, st)
    && Log(map[], Failing(ip, email, times), AccountKey(email)) == times
  }

  lemma FailsAgain(ip: string, email: string, times: seq<nat>, st: LockState, now: nat)
    requires !("acct" <= ip) && Leaves(ip, email, times, st) && st.lockedUntil <= now
    ensures Leaves(ip, email, times + [now], Recorded(Some(st), now))
  {
    hide AddressKey, AccountKey, Recorded;
    KeysDiffer(ip, email, email);
    var all := Failing(ip, email, times + [now]);
    assert all[..|times|] == Failing(ip, email, times);
  }

  lemma FailsFirst(ip: string, email: string)
    requires !("acct" <= ip)
    ensures Leaves(ip, email, [0], LockState(1, 0, 0))
  {
    hide AddressKey, AccountKey;
    KeysDiffer(ip, email, email);
    var all := Failing(ip, email, [0]);
    assert all[..0] == [];
    assert RunAll(map[], all[..0]) == map[] && Log(map[], all[..0], AccountKey(email)) == [];
  }

  lemma CountsUp(failures: nat, start: nat, now: nat)
    requires failures < MAX_FAILURES - 1 && start <= now <= start + FAILURE_WINDOW_MS
    ensures Recorded(Some(LockState(failures, 0, start)), now) == LockState(failures + 1, 0, start)
  {
  }

  lemma OpensAnother(failures: nat, start: nat, now: nat)
    requires now > start + FAILURE_WINDOW_MS
    ensures Recorded(Some(LockState(failures, 0, start)), now) == LockState(1, 0, now)
  {
  }

  /** Four failures, no lock yet. */
  lemma FourFail(ip: string, email: string)
    requires !("acct" <= ip)
    ensures var w := FAILURE_WINDOW_MS; Leaves(ip, email, [0] + [w] + [w] + [w], LockState(4, 0, 0))
  {
    hide Leaves, Recorded;
    var w := FAILURE_WINDOW_MS;
    FailsFirst(ip, email);
    CountsUp(1, 0, w);
    FailsAgain(ip, email, [0], LockState(1, 0, 0), w);
    CountsUp(2, 0, w);
    FailsAgain(ip, email, [0] + [w], LockState(2, 0, 0), w);
    CountsUp(3, 0, w);
    FailsAgain(ip, email, [0] + [w] + [w], LockState(3, 0, 0), w);
  }

  function FiveTimes(times: seq<nat>, t: nat): seq<nat> {
    times + [t] + [t] + [t] + [t] + [t]
  }

  /** Five more in the next window. */
  lemma FiveMore(ip: string, email: string, times: seq<nat>, t: nat) returns (st: LockState)
    requires !("acct" <= ip) && Leaves(ip, email, times, LockState(4, 0, 0)) && t > FAILURE_WINDOW_MS
    ensures Leaves(ip, email, FiveTimes(times, t), st)
  {
    hide Leaves, Recorded;
    OpensAnother(4, 0, t);
    FailsAgain(ip, email, times, LockState(4, 0, 0), t);
    CountsUp(1, t, t);
    FailsAgain(ip, email, times + [t], LockState(1, 0, t), t);
    CountsUp(2, t, t);
    FailsAgain(ip, email, times + [t] + [t], LockState(2, 0, t), t);
    CountsUp(3, t, t);
    FailsAgain(ip, email, times + [t] + [t] + [t], LockState(3, 0, t), t);
    FailsAgain(ip, email, times + [t] + [t] + [t] + [t], LockState(4, 0, t), t);
    st := Recorded(Some(LockState(4, 0, t)), t);
  }

  /** Eight is reached: one failure, three late ones of its window, and five of the next. */
  lemma EightIsReached(ip: string, email: string) returns (attempts: seq<Attempt>)
    requires !("acct" <= ip)
    ensures Plausible(attempts) && |attempts| == 9
    ensures Within(Log(map[], attempts, AccountKey(email)), FAILURE_WINDOW_MS, 2 * FAILURE_WINDOW_MS) == 8
  {
    hide RunAll, Log, Both, Within, AccountKey;
    var w := FAILURE_WINDOW_MS;
    var four := [0] + [w] + [w] + [w];
    var times := FiveTimes(four, w + 1);
    FourFail(ip, email);
    var st := FiveMore(ip, email, four, w + 1);
    attempts := Failing(ip, email, times);
    assert Sorted(times);
    CountsEight(times);
  }

  lemma CountsEight(log: seq<nat>)
    requires var w := FAILURE_WINDOW_MS; log == [0] + [w] + [w] + [w] + [w + 1] + [w + 1] + [w + 1] + [w + 1] + [w + 1]
    ensures Within(log, FAILURE_WINDOW_MS, 2 * FAILURE_WINDOW_MS) == 8
  {
    hide Within;
    var w := FAILURE_WINDOW_MS;
    WithinSnoc([], 0, w, 2 * w);
    WithinSnoc([0], w, w, 2 * w);
    WithinSnoc([0] + [w], w, w, 2 * w);
    WithinSnoc([0] + [w] + [w], w, w, 2 * w);
    WithinSnoc([0] + [w] + [w] + [w], w + 1, w, 2 * w);
    WithinSnoc([0] + [w] + [w] + [w] + [w + 1], w + 1, w, 2 * w);
    WithinSnoc([0] + [w] + [w] + [w] + [w + 1] + [w + 1], w + 1, w, 2 * w);
    WithinSnoc([0] + [w] + [w] + [w] + [w + 1] + [w + 1] + [w + 1], w + 1, w, 2 * w);
    WithinSnoc([0] + [w] + [w] + [w] + [w + 1] + [w + 1] + [w + 1] + [w + 1], w + 1, w, 2 * w);
    WithinNone(w, 2 * w);
    assert [] + [0] == [0];
  }

  lemma WithinSnoc(log: seq<nat>, t: nat, from: nat, to: nat)
    ensures Within(log + [t], from, to) == Within(log, from, to) + (if from <= t < to then 1 else 0)
  {
    assert (log + [t])[..|log|] == log;
  }

  lemma WithinNone(from: nat, to: nat)
    ensures Within([], from, to) == 0
  {
  }

  // ---- The lock itself

  /** The window that the recorded failures of an account are in: when it began, and how many it holds. */
  datatype Window = Window(start: nat, count: nat)

  /** A failure opens a new window when the last lock is over or the window is older than its length. */
  function WindowOf(log: seq<nat>): Window {
    if log == [] then Window(0, 0)
    else if |log| == 1 then Window(log[0], 1)
    else
      var n := |log| - 1;
      var before, t := WindowOf(log[..n]), log[n];
      var lockOver := before.count >= MAX_FAILURES && log[n - 1] + LOCK_MS < t;
      if lockOver || t > before.start + FAILURE_WINDOW_MS then Window(t, 1) else Window(before.start, before.count + 1)
  }

  /** The counter is exactly the window of the recorded failures, and the lock that of a full window. */
  predicate Mirrors(state: Option<LockState>, log: seq<nat>) {
    match state
    case None => log == []
    case Some(st) =>
      && log != [] && st.failures == WindowOf(log).count && st.windowStartedAt == WindowOf(log).start
      && st.lockedUntil == (if st.failures >= MAX_FAILURES then log[|log| - 1] + LOCK_MS else 0)
  }

  lemma RecordMirrors(state: Option<LockState>, log: seq<nat>, now: nat)
    requires Mirrors(state, log)
    ensures Mirrors(Some(Recorded(state, now)), log + [now])
  {
    assert (log + [now])[..|log|] == log;
    if log != [] {
      assert (log + [now])[|log| - 1] == log[|log| - 1];
    }
  }

  lemma {:induction false} RunMirrors(attempts: seq<Attempt>, key: string)
    requires Plausible(attempts) && "acct::" <= key
    ensures Mirrors(StateOf(RunAll(map[], attempts), key), Log(map[], attempts, key))
  {
    hide AddressKey, AccountKey, Recorded, Mirrors;
    if attempts != [] {
      var before, a := attempts[..|attempts| - 1], attempts[|attempts| - 1];
      RunMirrors(before, key);
      KeysDiffer(a.ip, a.email, a.email);
      NotAnAccount(a.ip, a.email, key);
      RecordMirrors(StateOf(RunAll(map[], before), key), Log(map[], before, key), a.now);
      MirrorsNothing();
    } else {
      MirrorsNothing();
    }
  }

  lemma MirrorsNothing()
    ensures Mirrors(None, [])
  {
  }

  lemma AccountKeyForm(email: string)
    ensures "acct::" <= AccountKey(email)
  {
  }

  /** One attempt during the lock. */
  lemma LockStep(locks: Locks, a: Attempt, email: string)
    requires AccountKey(email) in locks && a.now < locks[AccountKey(email)].lockedUntil
    requires !("acct" <= a.ip)
    ensures StateOf(After(locks, a), AccountKey(email)) == Some(locks[AccountKey(email)])
    ensures AccountKey(a.email) == AccountKey(email) ==> Outcomes(locks, a) == Refused
  {
    hide AddressKey, AccountKey, Recorded;
    KeysDiffer(a.ip, a.email, email);
  }

  /** While an account is locked every attempt on it is refused from any address, with the right
      password too, and no attempt on any account ends or prolongs the lock. */
  lemma {:induction false} LockHolds(locks: Locks, attempts: seq<Attempt>, email: string)
    requires Plausible(attempts) && AccountKey(email) in locks
    requires forall i :: 0 <= i < |attempts| ==> attempts[i].now < locks[AccountKey(email)].lockedUntil
    ensures StateOf(RunAll(locks, attempts), AccountKey(email)) == Some(locks[AccountKey(email)])
    ensures forall i :: 0 <= i < |attempts| && AccountKey(attempts[i].email) == AccountKey(email) ==>
              Outcomes(RunAll(locks, attempts[..i]), attempts[i]) == Refused
  {
    hide AddressKey, AccountKey, Outcomes, After;
    if attempts != [] {
      var before, a := attempts[..|attempts| - 1], attempts[|attempts| - 1];
      LockHolds(locks, before, email);
      LockStep(RunAll(locks, before), a, email);
      assert forall i :: 0 <= i < |before| ==> attempts[..i] == before[..i];
    }
  }

  lemma {:induction false} RunAppend(locks: Locks, first: seq<Attempt>, second: seq<Attempt>)
    ensures RunAll(locks, first + second) == RunAll(RunAll(locks, first), second)
  {
    hide After;
    if second == [] {
      assert first + second == first;
    } else {
      RunAppend(locks, first, second[..|second| - 1]);
      assert (first + second)[..|first + second| - 1] == first + second[..|second| - 1];
    }
  }

  /**
   * In every run: when the failure `a` is the fifth or a later one of its window, every attempt on the account in the
   * next 15 minutes is refused, from any address and with any password.
   */
  lemma FifthFailureLocks(attempts: seq<Attempt>, a: Attempt, later: seq<Attempt>, i: nat)
    requires Plausible(attempts + [a] + later)
    requires Outcomes(RunAll(map[], attempts), a) == Failed
    requires WindowOf(Log(map[], attempts + [a], AccountKey(a.email))).count >= MAX_FAILURES
    requires i < |later| && AccountKey(later[i].email) == AccountKey(a.email) && later[i].now < a.now + LOCK_MS
    ensures Outcomes(RunAll(map[], attempts + [a] + later[..i]), later[i]) == Refused
  {
    hide AccountKey, AddressKey, Outcomes, RunAll, Log, WindowOf;
    var all := attempts + [a];
    PlausiblePrefix(all, later);
    FifthFailureSetsLock(attempts, a);
    var locks := RunAll(map[], all);
    var soon := later[..i + 1];
    PlausibleSuffix(all, later, i + 1);
    assert soon[i] == later[i];
    LockHolds(locks, soon, a.email);
    assert soon[..i] == later[..i];
    RunAppend(map[], all, later[..i]);
  }

  lemma FifthFailureSetsLock(attempts: seq<Attempt>, a: Attempt)
    requires Plausible(attempts + [a])
    requires Outcomes(RunAll(map[], attempts), a) == Failed
    requires WindowOf(Log(map[], attempts + [a], AccountKey(a.email))).count >= MAX_FAILURES
    ensures StateOf(RunAll(map[], attempts + [a]), AccountKey(a.email)).Some?
    ensures RunAll(map[], attempts + [a])[AccountKey(a.email)].lockedUntil == a.now + LOCK_MS
  {
    hide AccountKey, AddressKey, Outcomes, RunAll, Log, WindowOf;
    AccountKeyForm(a.email);
    RunMirrors(attempts + [a], AccountKey(a.email));
    LogEndsWith(attempts, a);
  }

  /** With fewer failures in its window an account is not locked. */
  lemma FewerFailuresDoNotLock(attempts: seq<Attempt>, email: string, now: nat)
    requires Plausible(attempts)
    requires WindowOf(Log(map[], attempts, AccountKey(email))).count < MAX_FAILURES
    ensures Allowed(RunAll(map[], attempts), AccountKey(email), now)
  {
    hide AccountKey, RunAll, Log, WindowOf;
    AccountKeyForm(email);
    RunMirrors(attempts, AccountKey(email));
  }

  lemma LogEndsWith(attempts: seq<Attempt>, a: Attempt)
    requires Outcomes(RunAll(map[], attempts), a) == Failed
    ensures Log(map[], attempts + [a], AccountKey(a.email)) == Log(map[], attempts, AccountKey(a.email)) + [a.now]
  {
    hide AccountKey, AddressKey, Outcomes, After;
    assert (attempts + [a])[..|attempts|] == attempts;
  }

  lemma PlausiblePrefix(first: seq<Attempt>, second: seq<Attempt>)
    requires Plausible(first + second)
    ensures Plausible(first)
  {
    assert forall i :: 0 <= i < |first| ==> (first + second)[i] == first[i];
  }

  lemma PlausibleSuffix(first: seq<Attempt>, second: seq<Attempt>, n: nat)
    requires Plausible(first + second) && n <= |second|
    ensures Plausible(second[..n])
  {
    assert forall i :: 0 <= i < |second| ==> (first + second)[|first| + i] == second[i];
  }

  // ---- The module-level map

  class LoginLocks {
    var locks: Locks

    constructor ()
      ensures locks == map[]
    {
      locks := map[];
    }

    /** `assertLoginAllowed` */
    method AssertAllowed(key: string, now: nat) returns (allowed: bool)
      ensures allowed <==> Allowed(locks, key, now)
    {
      if key !in locks {
        return true;
      }
      allowed := !(locks[key].lockedUntil > now);
    }

    /** `recordLoginFailure` */
    method RecordFailure(key: string, now: nat)
      modifies this
      ensures locks == Record(old(locks), key, now)
    {
      if key !in locks
         || (locks[key].lockedUntil > 0 && locks[key].lockedUntil < now)
         || now - locks[key].windowStartedAt > FAILURE_WINDOW_MS
      {
        locks := locks[key := LockState(1, 0, now)];
        return;
      }
      var prev := locks[key];
      var failures := prev.failures + 1;
      var until: nat := if failures >= MAX_FAILURES then now + LOCK_MS else 0;
      locks := locks[key := LockState(failures, until, prev.windowStartedAt)];
    }

    /** `clearLoginFailures` */
    method Clear(key: string)
      modifies this
      ensures locks == old(locks) - {key}
    {
      locks := locks - {key};
    }

    /** A login request: both identities are checked, then both are recorded or cleared. */
    method Login(a: Attempt) returns (outcome: Outcome)
      modifies this
      ensures outcome == Outcomes(old(locks), a) && locks == After(old(locks), a)
    {
      hide AddressKey, AccountKey, Recorded;
      var address := AssertAllowed(AddressKey(a.ip, a.email), a.now);
      var account := AssertAllowed(AccountKey(a.email), a.now);
      if !address || !account {
        return Refused;
      }
      if a.correct {
        Clear(AddressKey(a.ip, a.email));
        Clear(AccountKey(a.email));
        return Entered;
      }
      RecordFailure(AddressKey(a.ip, a.email), a.now);
      RecordFailure(AccountKey(a.email), a.now);
      return Failed;
    }
  }
}
