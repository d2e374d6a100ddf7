/** The push loop of one dashboard connection: `send` with its dirty flag, and what is set up after the first one. */
module PushLoop {
  import opened Text

  datatype Loop = Loop(closed: bool, sending: bool, dirty: bool)

  /** A timer, a Docker change, the end of the fetch under way, the end of the connection. */
  datatype Signal = Tick | Change | FetchSettled | Close

  /**
   * One connection: the flags; when `send` was called, when fetches began and when Docker changes came; how many
   * fetches are over; when the first was, after which the stream listens; whether the connection has ended.
   */
  datatype Stream = Stream(
    loop: Loop,
    triggers: seq<nat>,
    starts: seq<nat>,
    changes: seq<nat>,
    settled: nat,
    listening: Option<nat>,
    gone: bool,
    now: nat)

  /** The stream as its first `send` leaves it: the opening fetch is out, and nothing is subscribed yet. */
  const OPENING := Stream(Loop(false, true, false), [0], [0], [], 0, None, false, 0)

  function Sent(s: Stream): Stream {
    if s.loop.closed then s
    else if s.loop.sending then s.(loop := s.loop.(dirty := true))
    else s.(loop := Loop(false, true, false), starts := s.starts + [s.now])
  }

  predicate CanOccur(s: Stream, e: Signal) {
    match e
    case Tick => s.listening.Some? && !s.loop.closed
    case Change => true
    case FetchSettled => s.loop.sending
    case Close => !s.gone
  }

  function Next(s: Stream, e: Signal): Stream
    requires CanOccur(s, e)
  {
    var t := s.(now := s.now + 1);
    match e
    case Tick => Sent(t.(triggers := t.triggers + [t.now]))
    case Change =>
      var told := t.(changes := t.changes + [t.now]);
      if t.listening.None? || t.loop.closed then told else Sent(told.(triggers := t.triggers + [t.now]))
    case FetchSettled =>
      var idle := t.(loop := t.loop.(sending := false), settled := t.settled + 1,
                     listening := if t.listening.None? then Some(t.now) else t.listening);
      if t.loop.dirty && !t.loop.closed then Sent(idle) else idle
    case Close => t.(gone := true, loop := t.loop.(closed := t.loop.closed || t.listening.Some?))
  }

  predicate CanRun(s: Stream, events: seq<Signal>)
    decreases |events|, 0
  {
    events == [] || (CanRun(s, events[..|events| - 1])
      && CanOccur(Run(s, events[..|events| - 1]), events[|events| - 1]))
  }

  function Run(s: Stream, events: seq<Signal>): Stream
    requires CanRun(s, events)
    decreases |events|, 1
  {
    if events == [] then s else Next(Run(s, events[..|events| - 1]), events[|events| - 1])
  }

  predicate InPast(times: seq<nat>, now: nat) {
    times != [] ==> times[|times| - 1] <= now
  }

  /** The last of these times comes after the last fetch began. */
  predicate Unserved(s: Stream, times: seq<nat>)
    requires s.starts != []
  {
    times != [] && s.starts[|s.starts| - 1] < times[|times| - 1]
  }

  predicate Good(s: Stream) {
    && s.starts != [] && s.starts[0] == 0
    && InPast(s.triggers, s.now) && InPast(s.starts, s.now) && InPast(s.changes, s.now)
    && |s.starts| == s.settled + (if s.loop.sending then 1 else 0)
    && |s.starts| + (if s.loop.dirty then 1 else 0) <= |s.triggers|
    && (!s.loop.closed && s.loop.dirty ==> s.loop.sending)
    && (!s.loop.closed && !s.loop.dirty ==> !Unserved(s, s.triggers))
    && (s.listening.Some? <==> s.settled > 0)
    && (s.loop.closed ==> s.gone)
    && (s.changes != [] ==> 0 < s.changes[|s.changes| - 1])
  }

  /** Before the stream listens only the opening fetch is out; afterwards every change is a trigger. */
  predicate Listens(s: Stream)
    requires s.starts != []
  {
    match s.listening
    case None => s.loop == Loop(false, true, false) && |s.starts| == 1
    case Some(from) =>
      && 0 < from <= s.now
      && (|s.starts| > 1 ==> from < s.starts[|s.starts| - 1])
      && (!s.loop.closed && s.changes != [] ==>
            var last := s.changes[|s.changes| - 1];
            last != from && (from < last ==> s.triggers != [] && last <= s.triggers[|s.triggers| - 1]))
  }

  predicate Sound(s: Stream) {
    Good(s) && Listens(s)
  }

  lemma TickKeeps(s: Stream)
    requires Sound(s) && CanOccur(s, Tick)
    ensures Sound(Next(s, Tick))
  {
  }

  lemma ChangeKeeps(s: Stream)
    requires Sound(s)
    ensures Sound(Next(s, Change))
  {
    var n := Next(s, Change);
    if s.listening.Some? && !s.loop.closed {
      assert n.triggers == s.triggers + [n.now] && n.changes == s.changes + [n.now];
    } else {
      assert n.triggers == s.triggers && n.starts == s.starts && n.loop == s.loop;
    }
  }

  lemma SettledKeeps(s: Stream)
    requires Sound(s) && CanOccur(s, FetchSettled)
    ensures Sound(Next(s, FetchSettled))
  {
  }

  lemma CloseKeeps(s: Stream)
    requires Sound(s) && CanOccur(s, Close)
    ensures Sound(Next(s, Close))
  {
  }

  lemma StepKeepsGood(s: Stream, e: Signal)
    requires Sound(s) && CanOccur(s, e)
    ensures Sound(Next(s, e))
  {
    hide Sound, Next;
    match e
    case Tick => TickKeeps(s);
    case Change => ChangeKeeps(s);
    case FetchSettled => SettledKeeps(s);
    case Close => CloseKeeps(s);
  }

  lemma {:induction false} RunIsGood(events: seq<Signal>)
    requires CanRun(OPENING, events)
    ensures Sound(Run(OPENING, events))
  {
    hide Sound, Next;
    if events != [] {
      RunIsGood(events[..|events| - 1]);
      StepKeepsGood(Run(OPENING, events[..|events| - 1]), events[|events| - 1]);
    } else {
      OpeningIsGood();
    }
  }

  lemma OpeningIsGood()
    ensures Sound(OPENING)
  {
  }

  /** One fetch at a time, never more than calls of `send`; an idle open stream has begun one since the last of them. */
  lemma NoTriggerIsLost(events: seq<Signal>)
    requires CanRun(OPENING, events)
    ensures var s := Run(OPENING, events);
      && |s.starts| - s.settled == (if s.loop.sending then 1 else 0)
      && |s.starts| <= |s.triggers|
      && s.starts != [] && (!s.loop.closed && !s.loop.sending ==> !Unserved(s, s.triggers))
  {
    RunIsGood(events);
  }

  /** A call of `send` during a fetch starts the next one as soon as that fetch settles. */
  lemma SettledFetchCatchesUp(events: seq<Signal>)
    requires CanRun(OPENING, events) && Run(OPENING, events).loop.sending && !Run(OPENING, events).loop.closed
    ensures var s, n := Run(OPENING, events), Next(Run(OPENING, events), FetchSettled);
      n.starts != [] && !Unserved(n, n.triggers) && (n.loop.sending <==> s.loop.dirty) && !n.loop.dirty
  {
    RunIsGood(events);
    StepKeepsGood(Run(OPENING, events), FetchSettled);
  }

  /** A Docker change on an open stream starts a fetch or marks one, exactly when the opening fetch is over. */
  lemma ChangeActsIff(events: seq<Signal>)
    requires CanRun(OPENING, events) && !Run(OPENING, events).loop.closed
    ensures var s, n := Run(OPENING, events), Next(Run(OPENING, events), Change);
      |n.starts| > |s.starts| || n.loop.dirty <==> s.settled > 0
  {
    RunIsGood(events);
  }

  /** An idle open stream has missed a change exactly when that came during the opening fetch and no other has begun. */
  lemma ChangeIsMissedIff(events: seq<Signal>)
    requires CanRun(OPENING, events) && !Run(OPENING, events).loop.closed && !Run(OPENING, events).loop.sending
    ensures var s := Run(OPENING, events);
      && s.starts != [] && s.listening.Some?
      && (Unserved(s, s.changes)
          <==> |s.starts| == 1 && s.changes != [] && s.changes[|s.changes| - 1] < s.listening.value)
  {
    RunIsGood(events);
  }

  /** From any state with the opening fetch out: a change then stays missed until a timer or another change. */
  lemma {:induction false} MissedUntilNextTrigger(events: seq<Signal>, more: seq<Signal>)
    requires CanRun(OPENING, events) && Run(OPENING, events).loop.sending && Run(OPENING, events).settled == 0
    requires var s := Next(Next(Run(OPENING, events), Change), FetchSettled);
      CanRun(s, more) && Tick !in more && Change !in more
    ensures var s := Next(Next(Run(OPENING, events), Change), FetchSettled);
      var n := Run(s, more);
      !n.loop.sending && n.starts == [0] && Unserved(n, n.changes)
  {
    RunIsGood(events);
    if more != [] {
      var front, last := more[..|more| - 1], more[|more| - 1];
      assert last in more && forall e <- front :: e in more;
      MissedUntilNextTrigger(events, front);
    }
  }

  /** The end of the connection closes the stream exactly when the opening fetch was over by then. */
  lemma {:induction false} CloseIsSeenIff(events: seq<Signal>, more: seq<Signal>)
    requires CanRun(OPENING, events) && CanOccur(Run(OPENING, events), Close)
    requires CanRun(Next(Run(OPENING, events), Close), more)
    ensures var n := Run(Next(Run(OPENING, events), Close), more);
      n.gone && (n.loop.closed <==> Run(OPENING, events).settled > 0)
  {
    RunIsGood(events);
    if more != [] {
      CloseIsSeenIff(events, more[..|more| - 1]);
    }
  }

  class Dashboard {
    var closed: bool
    var sending: bool
    var dirty: bool
    var listening: bool

    ghost predicate Is(s: Stream)
      reads this
    {
      s.loop == Loop(closed, sending, dirty) && (listening <==> s.listening.Some?)
    }

    /** The handler up to its first await, which is that of the opening fetch. */
    constructor ()
      ensures Is(OPENING)
    {
      closed, sending, dirty, listening := false, true, false, false;
    }

    /** `fetches` says whether a call of the overview begins. */
    method Send(ghost s: Stream) returns (fetches: bool)
      requires Is(s)
      modifies this
      ensures Is(Sent(s))
      ensures fetches <==> |Sent(s).starts| > |s.starts|
    {
      fetches := false;
      if closed {
        return;
      }
      if sending {
        dirty := true;
        return;
      }
      sending := true;
      dirty := false;
      fetches := true;
    }

    /** A Docker change; the subscription exists while the stream listens and is not closed. */
    method DockerChange(ghost s: Stream) returns (fetches: bool)
      requires Is(s)
      modifies this
      ensures Is(Next(s, Change))
      ensures fetches <==> |Next(s, Change).starts| > |s.starts|
    {
      fetches := false;
      if listening && !closed {
        ghost var now := s.now + 1;
        fetches := Send(s.(now := now, changes := s.changes + [now], triggers := s.triggers + [now]));
      }
    }

    /** The `finally` block, and after the opening fetch the rest of the handler: timer, subscriptions, close. */
    method Settle(ghost s: Stream) returns (fetches: bool)
      requires Is(s) && sending
      modifies this
      ensures Is(Next(s, FetchSettled))
      ensures fetches <==> |Next(s, FetchSettled).starts| > |s.starts|
    {
      fetches := false;
      sending := false;
      listening := true;
      if dirty && !closed {
        ghost var now := s.now + 1;
        ghost var since := if s.listening.None? then Some(now) else s.listening;
        ghost var idle := s.loop.(sending := false);
        fetches := Send(s.(now := now, loop := idle, settled := s.settled + 1, listening := since));
      }
    }

    /** The end of the connection; the handlers exist once the stream listens. */
    method Cleanup(ghost s: Stream)
      requires Is(s) && CanOccur(s, Close)
      modifies this
      ensures Is(Next(s, Close))
    {
      if !listening || closed {
        return;
      }
      closed := true;
    }
  }
}
