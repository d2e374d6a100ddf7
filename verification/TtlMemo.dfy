/** A value shared for a few seconds, and the load of it that is under way. */
module TtlMemo {
  import opened Text

  const TTL_MS := 6000

  /** A stored value: the load it came from (by its first step), when it was stored, in time and in steps. */
  datatype Stored = Stored(load: nat, at: nat, step: nat)

  datatype Memo = Memo(
    cached: Option<Stored>,
    inflight: Option<nat>,
    loading: set<nat>,
    cleared: nat,
    step: nat,
    clock: nat)

  const EMPTY := Memo(None, None, {}, 0, 0, 0)

  /** `Pass` stands for whatever else happens meanwhile. */
  datatype Call = Get(wait: nat) | LoadSettled(load: nat, ok: bool, wait: nat) | Clear(wait: nat) | Pass(wait: nat)

  predicate CanCall(m: Memo, c: Call) {
    c.LoadSettled? ==> c.load in m.loading
  }

  predicate Current(m: Memo, now: nat) {
    m.cached.Some? && now - m.cached.value.at < TTL_MS
  }

  /** The load whose value a get returns. */
  function Served(m: Memo, wait: nat): nat {
    if Current(m, m.clock + wait) then m.cached.value.load
    else if m.inflight.Some? then m.inflight.value
    else m.step + 1
  }

  function AfterCall(m: Memo, c: Call): Memo
    requires CanCall(m, c)
  {
    var t := m.(step := m.step + 1, clock := m.clock + c.wait);
    match c
    case Get(_) =>
      if Current(m, t.clock) || m.inflight.Some? then t
      else t.(inflight := Some(t.step), loading := t.loading + {t.step})
    case LoadSettled(load, ok, _) =>
      t.(cached := if ok then Some(Stored(load, t.clock, t.step)) else t.cached,
         inflight := None, loading := t.loading - {load})
    case Clear(_) => t.(cached := None, inflight := None, cleared := t.step)
    case Pass(_) => t
  }

  predicate MemoRun(states: seq<Memo>, calls: seq<Call>) {
    && |states| == |calls| + 1 && states[0] == EMPTY
    && forall i :: 0 <= i < |calls| ==> CanCall(states[i], calls[i]) && states[i + 1] == AfterCall(states[i], calls[i])
  }

  predicate MemoGood(m: Memo) {
    && m.cleared <= m.step
    && (m.cached.Some? ==> m.cleared <= m.cached.value.step <= m.step && m.cached.value.load < m.cached.value.step)
    && (m.inflight.Some? ==> m.cleared <= m.inflight.value <= m.step)
    && forall l <- m.loading :: l <= m.step
  }

  lemma CallKeepsGood(m: Memo, c: Call)
    requires MemoGood(m) && CanCall(m, c)
    ensures MemoGood(AfterCall(m, c))
  {
  }

  lemma {:induction false} MemoKeepsGood(states: seq<Memo>, calls: seq<Call>, i: nat)
    requires MemoRun(states, calls) && i < |states|
    ensures MemoGood(states[i])
  {
    if i > 0 {
      MemoKeepsGood(states, calls, i - 1);
      CallKeepsGood(states[i - 1], calls[i - 1]);
    }
  }

  /** A get returns a load begun before the last clear exactly when such a load stored its value after that clear. */
  lemma ServedIsOlderThanClear(states: seq<Memo>, calls: seq<Call>, i: nat, wait: nat)
    requires MemoRun(states, calls) && i < |states|
    ensures var m := states[i];
      Served(m, wait) < m.cleared
      <==> Current(m, m.clock + wait) && m.cached.value.load < m.cleared <= m.cached.value.step
  {
    MemoKeepsGood(states, calls, i);
  }
}
