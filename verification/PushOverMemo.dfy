/** One dashboard connection over the memo that all readers of the overview share. */
module PushOverMemo {
  import opened Text
  import opened PushLoop
  import opened TtlMemo

  /** `serving` is the load whose outcome the fetch under way will pass on, `passed` that of the last fetch. */
  datatype Joint = Joint(stream: Stream, memo: Memo, serving: Option<nat>, passed: Option<nat>)

  /** A Docker change, a timer, a read of somebody else, the end of a load, of a fetch, of the connection. */
  datatype Move =
    | DockerChange(wait: nat)
    | Timer(wait: nat)
    | OtherGet(wait: nat)
    | Loads(load: nat, ok: bool, wait: nat)
    | Settles(wait: nat)
    | Shut(wait: nat)

  /** The stream opens on a memo in any state. */
  function Begin(m: Memo): Joint {
    Joint(OPENING, AfterCall(m, Get(0)), Some(Served(m, 0)), None)
  }

  /** A fetch that has begun asks the memo. */
  function Fetch(j: Joint, before: Stream, wait: nat): Joint {
    if |j.stream.starts| > |before.starts| then
      j.(memo := AfterCall(j.memo, Get(wait)), serving := Some(Served(j.memo, wait)))
    else j.(memo := AfterCall(j.memo, Pass(wait)))
  }

  predicate CanMove(j: Joint, v: Move) {
    match v
    case DockerChange(_) => true
    case Timer(_) => CanOccur(j.stream, Tick)
    case OtherGet(_) => true
    case Loads(load, _, _) => load in j.memo.loading
    case Settles(_) => CanOccur(j.stream, FetchSettled) && j.serving.Some? && j.serving.value !in j.memo.loading
    case Shut(_) => CanOccur(j.stream, Close)
  }

  /** The memo's own subscription was made first, so a change clears the memo and then tells the stream. */
  function Moved(j: Joint, v: Move): Joint
    requires CanMove(j, v)
  {
    match v
    case DockerChange(wait) =>
      Fetch(j.(stream := Next(j.stream, Change), memo := AfterCall(j.memo, Clear(wait))), j.stream, 0)
    case Timer(wait) => Fetch(j.(stream := Next(j.stream, Tick)), j.stream, wait)
    case OtherGet(wait) => j.(memo := AfterCall(j.memo, Get(wait)))
    case Loads(load, ok, wait) => j.(memo := AfterCall(j.memo, LoadSettled(load, ok, wait)))
    case Settles(wait) => Fetch(Joint(Next(j.stream, FetchSettled), j.memo, None, j.serving), j.stream, wait)
    case Shut(wait) => j.(stream := Next(j.stream, Close), memo := AfterCall(j.memo, Pass(wait)))
  }

  predicate Chain(states: seq<Joint>, moves: seq<Move>) {
    && |states| == |moves| + 1
    && forall i :: 0 <= i < |moves| ==> CanMove(states[i], moves[i]) && states[i + 1] == Moved(states[i], moves[i])
  }

  /** A run from the opening on, over a memo as `before` left it. */
  predicate JointRun(before: seq<Memo>, calls: seq<Call>, states: seq<Joint>, moves: seq<Move>) {
    MemoRun(before, calls) && Chain(states, moves) && states[0] == Begin(before[|calls|])
  }

  /** The load behind the fetch under way, or else behind the last one. */
  function Latest(j: Joint): Option<nat> {
    if j.serving.Some? then j.serving else j.passed
  }

  predicate JointGood(j: Joint) {
    && Sound(j.stream) && MemoGood(j.memo)
    && (j.serving.Some? <==> j.stream.loop.sending)
    && Latest(j).Some? && Latest(j).value <= j.memo.step
    && (Unserved(j.stream, j.stream.changes) ==> Latest(j).value < j.memo.cleared)
  }

  lemma FetchKeepsGood(j: Joint, before: Stream, wait: nat)
    requires Sound(j.stream) && MemoGood(j.memo)
    requires j.stream.loop.sending <==> j.serving.Some? || |j.stream.starts| > |before.starts|
    requires |j.stream.starts| > |before.starts| ==> j.stream.starts[|j.stream.starts| - 1] == j.stream.now
    requires |j.stream.starts| <= |before.starts| ==>
      && Latest(j).Some? && Latest(j).value <= j.memo.step
      && (Unserved(j.stream, j.stream.changes) ==> Latest(j).value < j.memo.cleared)
    ensures JointGood(Fetch(j, before, wait))
  {
    hide Listens;
    CallKeepsGood(j.memo, Get(wait));
    CallKeepsGood(j.memo, Pass(wait));
  }

  /** What a step of the stream does to its fetches and changes. */
  lemma NextFetches(s: Stream, e: Signal)
    requires Good(s) && CanOccur(s, e)
    ensures var n := Next(s, e);
      && n.starts != [] && n.changes == (if e.Change? then s.changes + [n.now] else s.changes)
      && (|n.starts| <= |s.starts| ==> n.starts == s.starts && (n.loop.sending <==> s.loop.sending && !e.FetchSettled?))
      && (|n.starts| > |s.starts| ==>
            n.starts[|n.starts| - 1] == n.now && n.loop.sending && !e.Close? && (s.loop.sending ==> e.FetchSettled?))
  {
  }

  lemma MoveKeepsGood(j: Joint, v: Move)
    requires JointGood(j) && CanMove(j, v)
    ensures JointGood(Moved(j, v))
  {
    hide Good, Listens, MemoGood, Fetch, Next;
    match v
    case DockerChange(wait) =>
      StepKeepsGood(j.stream, Change);
      NextFetches(j.stream, Change);
      CallKeepsGood(j.memo, Clear(wait));
      FetchKeepsGood(j.(stream := Next(j.stream, Change), memo := AfterCall(j.memo, Clear(wait))), j.stream, 0);
    case Timer(wait) =>
      StepKeepsGood(j.stream, Tick);
      NextFetches(j.stream, Tick);
      FetchKeepsGood(j.(stream := Next(j.stream, Tick)), j.stream, wait);
    case OtherGet(wait) => CallKeepsGood(j.memo, Get(wait));
    case Loads(load, ok, wait) => CallKeepsGood(j.memo, LoadSettled(load, ok, wait));
    case Settles(wait) =>
      StepKeepsGood(j.stream, FetchSettled);
      NextFetches(j.stream, FetchSettled);
      FetchKeepsGood(Joint(Next(j.stream, FetchSettled), j.memo, None, j.serving), j.stream, wait);
    case Shut(wait) =>
      StepKeepsGood(j.stream, Close);
      NextFetches(j.stream, Close);
      CallKeepsGood(j.memo, Pass(wait));
  }

  lemma {:induction false} JointKeepsGood(
    before: seq<Memo>, calls: seq<Call>, states: seq<Joint>, moves: seq<Move>, i: nat)
    requires JointRun(before, calls, states, moves) && i < |states|
    ensures JointGood(states[i])
  {
    hide JointGood, Moved;
    if i > 0 {
      JointKeepsGood(before, calls, states, moves, i - 1);
      MoveKeepsGood(states[i - 1], moves[i - 1]);
    } else {
      MemoKeepsGood(before, calls, |calls|);
      BeginIsGood(before[|calls|]);
    }
  }

  lemma BeginIsGood(m: Memo)
    requires MemoGood(m)
    ensures JointGood(Begin(m))
  {
    OpeningIsGood();
    CallKeepsGood(m, Get(0));
  }

  /**
   * In every run, a settled fetch that finds the stream dirty begins the next one at once, and what that one will send
   * was loaded since the last change, unless the memo still holds a value from a load begun before that change.
   */
  lemma RepeatedFetchIsFreshIff(
    before: seq<Memo>, calls: seq<Call>, states: seq<Joint>, moves: seq<Move>, i: nat)
    requires JointRun(before, calls, states, moves) && i < |moves| && moves[i].Settles?
    requires states[i].stream.loop.dirty && !states[i].stream.loop.closed
    ensures var m, n := states[i].memo, states[i + 1];
      && n.stream.loop.sending && !n.stream.loop.dirty && n.serving.Some? && n.memo.cleared == m.cleared
      && (n.serving.value < m.cleared
          <==> Current(m, m.clock + moves[i].wait) && m.cached.value.load < m.cleared <= m.cached.value.step)
  {
    hide JointGood;
    JointKeepsGood(before, calls, states, moves, i);
    RepeatIsFreshIff(states[i], moves[i].wait);
  }

  lemma RepeatIsFreshIff(j: Joint, wait: nat)
    requires JointGood(j) && CanMove(j, Settles(wait)) && j.stream.loop.dirty && !j.stream.loop.closed
    ensures var m, n := j.memo, Moved(j, Settles(wait));
      && n.stream.loop.sending && !n.stream.loop.dirty && n.serving.Some? && n.memo.cleared == m.cleared
      && (n.serving.value < m.cleared
          <==> Current(m, m.clock + wait) && m.cached.value.load < m.cleared <= m.cached.value.step)
  {
  }

  /** In every run, an idle stream that has missed a change has last passed on a load begun before that change. */
  lemma MissedChangeIsNotShown(
    before: seq<Memo>, calls: seq<Call>, states: seq<Joint>, moves: seq<Move>, i: nat)
    requires JointRun(before, calls, states, moves) && i < |states|
    requires var s := states[i].stream;
      !s.loop.closed && !s.loop.sending && |s.starts| == 1 && s.listening.Some?
      && s.changes != [] && s.changes[|s.changes| - 1] < s.listening.value
    ensures states[i].passed.Some? && states[i].passed.value < states[i].memo.cleared
  {
    JointKeepsGood(before, calls, states, moves, i);
  }

  /**
   * From any state in which a fetch of an open stream waits for a load: a change comes, the load and the fetch end.
   * During the opening fetch the stream then is idle and has passed on the load from before the change. During a later
   * one it repeats the fetch, which serves a load from before the change exactly when the old one ended well and was
   * stored less than six seconds before; it is that same load.
   */
  lemma ResendIsOldIff(j: Joint, ok: bool, wait: nat)
    requires JointGood(j) && j.stream.loop.sending && !j.stream.loop.closed && j.serving.value in j.memo.loading
    ensures var load := j.serving.value;
      CanMove(j, DockerChange(0)) &&
      var j1 := Moved(j, DockerChange(0));
      CanMove(j1, Loads(load, ok, 0)) &&
      var j2 := Moved(j1, Loads(load, ok, 0));
      CanMove(j2, Settles(wait)) &&
      var j3 := Moved(j2, Settles(wait));
      && j3.passed == Some(load) && load < j3.memo.cleared && !j3.stream.loop.dirty
      && (j3.stream.loop.sending <==> j.stream.settled > 0) && (j3.serving.Some? <==> j.stream.settled > 0)
      && (j3.serving.Some? ==>
            && (j3.serving.value < j3.memo.cleared <==> ok && wait < TTL_MS)
            && (ok && wait < TTL_MS ==> j3.serving.value == load))
  {
  }

  // ---- Two runs of a stream on a fresh memo

  const TIMER_MS := 15000

  lemma ChainOf(states: seq<Joint>, moves: seq<Move>)
    requires |states| == |moves| + 1 == 4
    requires CanMove(states[0], moves[0]) && states[1] == Moved(states[0], moves[0])
    requires CanMove(states[1], moves[1]) && states[2] == Moved(states[1], moves[1])
    requires CanMove(states[2], moves[2]) && states[3] == Moved(states[2], moves[2])
    ensures Chain(states, moves)
  {
    hide CanMove, Moved;
  }

  lemma ChainsJoin(a: seq<Joint>, b: seq<Joint>, first: seq<Move>, second: seq<Move>)
    requires Chain(a, first) && Chain(b, second) && a[|first|] == b[0]
    ensures Chain(a + b[1..], first + second)
  {
    hide CanMove, Moved;
  }

  lemma RunsFromEmpty(states: seq<Joint>, moves: seq<Move>)
    requires Chain(states, moves) && states[0] == Begin(EMPTY)
    ensures JointRun([EMPTY], [], states, moves)
  {
    hide CanMove, Moved;
  }

  /** A change during the opening fetch: the stream ends idle, having passed on the load from before the change. */
  lemma OpeningChangeIsMissed() returns (states: seq<Joint>, moves: seq<Move>)
    ensures moves == [DockerChange(0), Loads(1, true, 0), Settles(0)] && JointRun([EMPTY], [], states, moves)
    ensures var j := states[3]; !j.stream.loop.sending && j.passed == Some(1) && 1 < j.memo.cleared
  {
    hide Moved, CanMove, JointGood, Chain;
    moves := [DockerChange(0), Loads(1, true, 0), Settles(0)];
    var j0 := Begin(EMPTY);
    BeginIsGood(EMPTY);
    ResendIsOldIff(j0, true, 0);
    var j1 := Moved(j0, DockerChange(0));
    var j2 := Moved(j1, Loads(1, true, 0));
    states := [j0, j1, j2, Moved(j2, Settles(0))];
    ChainOf(states, moves);
    RunsFromEmpty(states, moves);
  }

  /** After the opening load, and after the opening fetch. */
  const LOADED := Joint(OPENING, Memo(Some(Stored(1, 0, 2)), None, {}, 0, 2, 0), Some(1), None)
  const IDLE := Joint(Stream(Loop(false, false, false), [0], [0], [], 1, Some(1), false, 1),
                      Memo(Some(Stored(1, 0, 2)), None, {}, 0, 3, 0), None, Some(1))

  lemma OpeningLoads()
    ensures CanMove(Begin(EMPTY), Loads(1, true, 0)) && Moved(Begin(EMPTY), Loads(1, true, 0)) == LOADED
  {
    assert {1} - {1} == {};
    assert AfterCall(EMPTY, Get(0)) == Memo(None, Some(1), {1}, 0, 1, 0);
  }

  lemma OpeningSettles()
    ensures CanMove(LOADED, Settles(0)) && Moved(LOADED, Settles(0)) == IDLE
  {
    assert Next(OPENING, FetchSettled) == IDLE.stream;
  }

  lemma TimerFetches()
    ensures CanMove(IDLE, Timer(TIMER_MS))
    ensures var j := Moved(IDLE, Timer(TIMER_MS));
      && j.stream.loop.sending && !j.stream.loop.closed && j.stream.settled == 1
      && j.serving == Some(4) && 4 in j.memo.loading
  {
    var n := Next(IDLE.stream, Tick);
    assert n.starts == IDLE.stream.starts + [2];
  }

  /** The opening fetch and the first timer. */
  lemma FirstTimer() returns (states: seq<Joint>, moves: seq<Move>)
    ensures moves == [Loads(1, true, 0), Settles(0), Timer(TIMER_MS)] && |states| == 4
    ensures Chain(states, moves) && states[0] == Begin(EMPTY)
    ensures var j := states[3];
      && JointGood(j) && j.stream.loop.sending && !j.stream.loop.closed && j.stream.settled == 1
      && j.serving == Some(4) && 4 in j.memo.loading
  {
    hide JointGood, Chain, CanMove, Moved, Begin;
    moves := [Loads(1, true, 0), Settles(0), Timer(TIMER_MS)];
    BeginIsGood(EMPTY);
    OpeningLoads();
    OpeningSettles();
    TimerFetches();
    MoveKeepsGood(Begin(EMPTY), Loads(1, true, 0));
    MoveKeepsGood(LOADED, Settles(0));
    MoveKeepsGood(IDLE, Timer(TIMER_MS));
    states := [Begin(EMPTY), LOADED, IDLE, Moved(IDLE, Timer(TIMER_MS))];
    ChainOf(states, moves);
  }

  /** A change during the fetch of the first timer: the repeated fetch serves the load from before the change. */
  lemma ResendCanBeOld(quick: nat) returns (states: seq<Joint>, moves: seq<Move>)
    requires quick < TTL_MS
    ensures moves == [Loads(1, true, 0), Settles(0), Timer(TIMER_MS), DockerChange(0), Loads(4, true, 0), Settles(quick)]
    ensures JointRun([EMPTY], [], states, moves)
    ensures states[6].stream.loop.sending && states[6].serving == Some(4) && 4 < states[6].memo.cleared
  {
    hide Moved, CanMove, JointGood, Chain;
    var front, first := FirstTimer();
    var j3 := front[3];
    ResendIsOldIff(j3, true, quick);
    var j4 := Moved(j3, DockerChange(0));
    var j5 := Moved(j4, Loads(4, true, 0));
    var second := [DockerChange(0), Loads(4, true, 0), Settles(quick)];
    var back := [j3, j4, j5, Moved(j5, Settles(quick))];
    ChainOf(back, second);
    ChainsJoin(front, back, first, second);
    states, moves := front + back[1..], first + second;
    RunsFromEmpty(states, moves);
  }
}
