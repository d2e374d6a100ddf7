/** The change stream: one frame per timer, with the latest change. */
module ChangeStream {
  import opened Text

  datatype Changes = Changes(closed: bool, timer: bool, pending: Option<nat>, received: nat, written: seq<nat>)

  datatype Tick = Change | Flush | End

  predicate CanTick(s: Changes, t: Tick) {
    t.Flush? ==> s.timer && !s.closed
  }

  /** Changes are numbered in the order of their arrival. */
  function AfterTick(s: Changes, t: Tick): Changes
    requires CanTick(s, t)
  {
    match t
    case Change =>
      if s.closed then s else s.(pending := Some(s.received), received := s.received + 1, timer := true)
    case Flush =>
      if s.pending.None? then s.(timer := false)
      else s.(timer := false, pending := None, written := s.written + [s.pending.value])
    case End => s.(closed := true)
  }

  predicate TickRun(states: seq<Changes>, ticks: seq<Tick>) {
    && |states| == |ticks| + 1 && states[0] == Changes(false, false, None, 0, [])
    && forall i :: 0 <= i < |ticks| ==> CanTick(states[i], ticks[i]) && states[i + 1] == AfterTick(states[i], ticks[i])
  }

  predicate Increasing(written: seq<nat>, bound: nat) {
    forall i, j :: 0 <= i <= j < |written| ==> (i < j ==> written[i] < written[j]) && written[j] < bound
  }

  predicate Kept(s: Changes) {
    && (s.pending.Some? ==> s.timer && s.pending.value == s.received - 1)
    && Increasing(s.written, if s.pending.Some? then s.received - 1 else s.received)
    && (s.pending.None? && s.received > 0 ==> s.written != [] && s.written[|s.written| - 1] == s.received - 1)
  }

  lemma TickKeeps(s: Changes, t: Tick)
    requires Kept(s) && CanTick(s, t)
    ensures Kept(AfterTick(s, t))
  {
    var n := AfterTick(s, t);
    if n.written != s.written {
      assert n.written[..|s.written|] == s.written;
    }
  }

  /** Frames carry changes in order and none twice, and once the timer is off the last change has been written. */
  lemma {:induction false} ChangesAreNotLost(states: seq<Changes>, ticks: seq<Tick>, i: nat)
    requires TickRun(states, ticks) && i < |states|
    ensures Kept(states[i])
    ensures Increasing(states[i].written, states[i].received)
    ensures !states[i].timer && states[i].received > 0 ==>
      states[i].written != [] && states[i].written[|states[i].written| - 1] == states[i].received - 1
  {
    if i > 0 {
      ChangesAreNotLost(states, ticks, i - 1);
      TickKeeps(states[i - 1], ticks[i - 1]);
    }
  }
}
