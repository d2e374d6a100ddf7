/** Which submitted layouts the save queue never sends, in every run of the system. */
module LostSubmits {
  import opened Text
  import opened HomeStore
  import opened SaveProtocol
  import opened SaveTheorems
  import Q = SaveQueue

  /** A save of the `n`th submit has been started. */
  predicate WasSent(k: Client, n: nat) {
    exists x <- k.sends :: x.item.origin == Submitted(n)
  }

  /** The last submit is the layout to send next, unless a reload has replaced it since. */
  predicate LastIsLatest(k: Client) {
    && (k.submits > k.floor ==> k.queue.latest.Some? && k.queue.latest.value.origin == Submitted(k.submits))
    && (k.queue.rerun ==> k.submits > k.floor && k.queue.inflight)
  }

  /** It has been sent exactly when no mark was left for it. */
  predicate MarkTells(k: Client) {
    && k.floor <= k.submits
    && (forall x <- k.sends :: x.item.origin.Submitted? ==> x.item.origin.n <= k.submits)
    && LastIsLatest(k)
    && (k.submits > k.floor ==> (WasSent(k, k.submits) <==> !k.queue.rerun))
  }

  /** What every step of one client leaves: the same sends, or one more, of a layout no older than the last reload. */
  predicate Grew(k: Client, n: Client) {
    && k.floor <= n.floor && k.submits <= n.submits
    && (n.sends == k.sends
        || (|n.sends| == |k.sends| + 1 && n.sends[..|k.sends|] == k.sends
            && (n.sends[|k.sends|].item.origin.Submitted? ==> n.floor < n.sends[|k.sends|].item.origin.n)))
  }

  /** A queue that begins a save sends its latest layout. */
  lemma ApplySends(k: Client, id: nat, turn: Q.Turn<Item>)
    ensures var n := Apply(k, id, turn);
      && n.queue == turn.queue && n.floor == k.floor && n.submits == k.submits
      && n.sends == (match turn.call
                     case None => k.sends
                     case Some(call) => k.sends + [Send(call.layout, k.floor)])
  {
  }

  lemma SentMore(k: Client, n: Client, x: Send, m: nat)
    requires n.sends == k.sends + [x]
    ensures WasSent(n, m) <==> WasSent(k, m) || x.item.origin == Submitted(m)
  {
    assert forall y :: y in n.sends <==> y in k.sends || y == x;
  }

  lemma SentSame(k: Client, n: Client, m: nat)
    requires n.sends == k.sends
    ensures WasSent(n, m) <==> WasSent(k, m)
  {
  }

  lemma SubmitTells(k: Client, id: nat, body: Layout)
    requires MarkTells(k) && Q.Valid(k.queue)
    ensures MarkTells(SubmitAt(k, id, body)) && Grew(k, SubmitAt(k, id, body))
  {
    hide WasSent;
    var item := Item(body, Submitted(k.submits + 1));
    var turn := Q.OnSubmit(k.queue, item);
    var n := SubmitAt(k, id, body);
    ApplySends(k.(submits := k.submits + 1), id, turn);
    NotYetSent(k);
    if turn.call.Some? {
      SentMore(k, n, Send(item, k.floor), k.submits + 1);
    } else {
      SentSame(k, n, k.submits + 1);
    }
  }

  lemma NotYetSent(k: Client)
    requires MarkTells(k)
    ensures !WasSent(k, k.submits + 1)
  {
  }

  /** A turn that ends a save, or the run, with the latest layout as it was. */
  lemma TurnTells(k: Client, id: nat, turn: Q.Turn<Item>)
    requires MarkTells(k) && k.queue.latest.Some? && turn.queue.latest == k.queue.latest
    requires LatestInv(k)
    requires turn.call.Some? ==> turn.call.value.layout == k.queue.latest.value && !turn.queue.rerun
    requires turn.call.None? ==> turn.queue.rerun == k.queue.rerun == false
    ensures MarkTells(Apply(k, id, turn)) && Grew(k, Apply(k, id, turn))
  {
    hide WasSent;
    var n := Apply(k, id, turn);
    ApplySends(k, id, turn);
    if turn.call.Some? {
      SentMore(k, n, Send(turn.call.value.layout, k.floor), k.submits);
    } else {
      SentSame(k, n, k.submits);
    }
  }

  /** Where the latest layout of a client comes from. */
  predicate LatestInv(k: Client) {
    k.queue.latest.Some? ==>
      match k.queue.latest.value.origin
      case Submitted(n) => k.floor < n <= k.submits
      case Reloaded(n) => n == k.floor
  }

  lemma SavedTells(k: Client, id: nat, revision: nat)
    requires MarkTells(k) && LatestInv(k) && k.queue.at.AwaitSave? && k.queue.latest.Some?
    ensures MarkTells(Acknowledge(k, id, revision)) && Grew(k, Acknowledge(k, id, revision))
  {
    hide MarkTells;
    var next := k.(net := Quiet, source := FromSave, saved := k.saved + {revision}, acked := Some(revision));
    SameSends(k, next);
    TurnTells(next, id, Q.OnSaved(k.queue, revision));
  }

  lemma FailedTells(k: Client, id: nat)
    requires MarkTells(k) && LatestInv(k) && k.queue.latest.Some?
    ensures MarkTells(Fail(k, id)) && Grew(k, Fail(k, id))
  {
    hide MarkTells;
    var next := k.(net := Quiet, clean := false);
    SameSends(k, next);
    TurnTells(next, id, Q.OnFailed(k.queue));
  }

  lemma ReloadTells(k: Client, id: nat, norm: Layout -> Layout, empty: Layout)
    requires MarkTells(k) && Complete(k.reload)
    ensures MarkTells(FinishReload(k, id, norm, empty)) && Grew(k, FinishReload(k, id, norm, empty))
  {
    hide WasSent, Loaded;
    var version := k.reload.value.layout.value.0;
    var state := Loaded(k.reload.value, norm, empty);
    var loaded := k.(source := FromLoad(version), loaded := k.loaded + {version}, reload := None, floor := k.submits);
    ApplySends(loaded, id, Q.OnReloaded(k.queue, Item(state.layout, Reloaded(k.submits)), state.revision));
  }

  /** Every step of the system on the client it is about, and on all others. */
  lemma StepTells(s: System, e: Event, c: nat, norm: Layout -> Layout, empty: Layout)
    requires Inv(s, norm) && Enabled(s, e) && c < |s.clients| && MarkTells(s.clients[c])
    ensures var t := Step(s, e, norm, empty);
      |t.clients| == |s.clients| && MarkTells(t.clients[c]) && Grew(s.clients[c], t.clients[c])
  {
    hide MarkTells, Grew;
    var k := s.clients[c];
    assert ClientInv(s.first, s.log, c, k);
    SameSends(k, k);
    if !e.HandleAbandoned? && e.c == c {
      ClientTells(s, e, c, norm, empty);
    }
  }

  lemma SameSends(k: Client, n: Client)
    requires n.sends == k.sends && n.floor == k.floor && n.submits == k.submits
    requires n.queue.latest == k.queue.latest && n.queue.rerun == k.queue.rerun && n.queue.inflight == k.queue.inflight
    ensures Grew(k, n) && (MarkTells(k) ==> MarkTells(n))
  {
  }

  lemma ClientTells(s: System, e: Event, c: nat, norm: Layout -> Layout, empty: Layout)
    requires Enabled(s, e) && !e.HandleAbandoned? && c == e.c && c < |s.clients| && MarkTells(s.clients[c])
    requires ClientInv(s.first, s.log, c, s.clients[c])
    ensures var t := Step(s, e, norm, empty);
      |t.clients| == |s.clients| && MarkTells(t.clients[c]) && Grew(s.clients[c], t.clients[c])
  {
    hide MarkTells, Grew, ReadsInv, SourceInv, CleanInv, Landed;
    var k := s.clients[c];
    if e.Submit? {
      SubmitTells(k, c, e.body);
    } else if e.Deliver? && k.net.outcome.Written? {
      SavedTells(k, c, k.net.outcome.revision);
    } else if e.Lose? {
      FailedTells(k, c);
    } else if e.ReloadDone? {
      ReloadTells(k, c, norm, empty);
    } else {
      SameSends(k, Step(s, e, norm, empty).clients[c]);
    }
  }

  // ---- Over all runs

  lemma {:induction false} RunTells(s: System, events: seq<Event>, c: nat, norm: Layout -> Layout, empty: Layout)
    requires Inv(s, norm) && CanRun(s, events, norm, empty) && c < |s.clients| && MarkTells(s.clients[c])
    ensures |Run(s, events, norm, empty).clients| == |s.clients| && MarkTells(Run(s, events, norm, empty).clients[c])
    decreases |events|
  {
    hide Inv, Step, MarkTells;
    if events != [] {
      StepKeeps(s, events[0], norm, empty);
      StepTells(s, events[0], c, norm, empty);
      RunTells(Step(s, events[0], norm, empty), events[1..], c, norm, empty);
    }
  }

  lemma ReachableTells(s: System, events: seq<Event>, c: nat, norm: Layout -> Layout, empty: Layout)
    requires Init(s) && CanRun(s, events, norm, empty) && c < |Run(s, events, norm, empty).clients|
    ensures Inv(Run(s, events, norm, empty), norm) && MarkTells(Run(s, events, norm, empty).clients[c])
  {
    hide Run, CanRun;
    Reachable(s, events, norm, empty);
    ClientsStay(s, events, norm, empty);
    assert s.clients[c] == NewClient();
    InitInv(s, norm);
    RunTells(s, events, c, norm, empty);
  }

  lemma {:induction false} ClientsStay(s: System, events: seq<Event>, norm: Layout -> Layout, empty: Layout)
    requires CanRun(s, events, norm, empty)
    ensures |Run(s, events, norm, empty).clients| == |s.clients|
    decreases |events|
  {
    if events != [] {
      ClientsStay(Step(s, events[0], norm, empty), events[1..], norm, empty);
    }
  }

  lemma GrewBeyond(k: Client, n: Client, m: nat)
    requires Grew(k, n) && m <= k.floor && !WasSent(k, m)
    ensures m <= n.floor && !WasSent(n, m)
  {
    if n.sends != k.sends {
      assert n.sends == k.sends + [n.sends[|k.sends|]];
      SentMore(k, n, n.sends[|k.sends|], m);
    }
  }

  /** What a reload has overtaken and was not sent before is not sent later. */
  lemma {:induction false} OvertakenStays(
    s: System, more: seq<Event>, c: nat, n: nat, norm: Layout -> Layout, empty: Layout)
    requires Inv(s, norm) && CanRun(s, more, norm, empty) && c < |s.clients| && MarkTells(s.clients[c])
    requires n <= s.clients[c].floor && !WasSent(s.clients[c], n)
    ensures c < |Run(s, more, norm, empty).clients| && !WasSent(Run(s, more, norm, empty).clients[c], n)
    decreases |more|
  {
    hide Inv, Step, MarkTells, WasSent, Grew;
    if more != [] {
      StepKeeps(s, more[0], norm, empty);
      StepTells(s, more[0], c, norm, empty);
      GrewBeyond(s.clients[c], Step(s, more[0], norm, empty).clients[c], n);
      OvertakenStays(Step(s, more[0], norm, empty), more[1..], c, n, norm, empty);
    }
  }

  /** No run from here on sends the `n`th submit. */
  ghost predicate NeverSent(s: System, c: nat, n: nat, norm: Layout -> Layout, empty: Layout)
    requires c < |s.clients|
  {
    forall more | CanRun(s, more, norm, empty) ::
      c < |Run(s, more, norm, empty).clients| && !WasSent(Run(s, more, norm, empty).clients[c], n)
  }

  /**
   * In every run: when the reload after a conflict is over, the last layout submitted since the reload before is lost
   * for good exactly when a submit came after the save that met the conflict had begun. The queue then sends what was
   * reloaded back to the server, and otherwise it comes to rest.
   */
  lemma ReloadLosesSubmitIff(s: System, events: seq<Event>, c: nat, norm: Layout -> Layout, empty: Layout)
    requires Init(s) && CanRun(s, events, norm, empty) && c < |Run(s, events, norm, empty).clients|
    requires var k := Run(s, events, norm, empty).clients[c]; Complete(k.reload) && k.submits > k.floor
    ensures var t := Run(s, events, norm, empty);
      var k, u := t.clients[c], Step(t, ReloadDone(c), norm, empty);
      var state := Loaded(k.reload.value, norm, empty);
      && |u.clients| == |t.clients|
      && (NeverSent(u, c, k.submits, norm, empty) <==> k.queue.rerun)
      && (k.queue.rerun ==> u.clients[c].net.Sent?
                            && u.clients[c].net.req.item == Item(state.layout, Reloaded(k.submits))
                            && u.clients[c].net.req.base == state.revision)
      && (!k.queue.rerun ==> !u.clients[c].queue.inflight)
  {
    hide Run, CanRun, MarkTells;
    ReachableTells(s, events, c, norm, empty);
    ReloadLoses(Run(s, events, norm, empty), c, norm, empty);
  }

  lemma ReloadLoses(t: System, c: nat, norm: Layout -> Layout, empty: Layout)
    requires Inv(t, norm) && c < |t.clients| && MarkTells(t.clients[c])
    requires Complete(t.clients[c].reload) && t.clients[c].submits > t.clients[c].floor
    ensures var k, u := t.clients[c], Step(t, ReloadDone(c), norm, empty);
      var state := Loaded(k.reload.value, norm, empty);
      && |u.clients| == |t.clients|
      && (NeverSent(u, c, k.submits, norm, empty) <==> k.queue.rerun)
      && (k.queue.rerun ==> u.clients[c].net.Sent?
                            && u.clients[c].net.req.item == Item(state.layout, Reloaded(k.submits))
                            && u.clients[c].net.req.base == state.revision)
      && (!k.queue.rerun ==> !u.clients[c].queue.inflight)
  {
    hide Inv, CanRun, Run, Grew, Loaded;
    var k, u := t.clients[c], Step(t, ReloadDone(c), norm, empty);
    StepKeeps(t, ReloadDone(c), norm, empty);
    StepTells(t, ReloadDone(c), c, norm, empty);
    ReloadSends(k, c, norm, empty);
    if k.queue.rerun {
      forall more | CanRun(u, more, norm, empty)
        ensures c < |Run(u, more, norm, empty).clients| && !WasSent(Run(u, more, norm, empty).clients[c], k.submits)
      {
        OvertakenStays(u, more, c, k.submits, norm, empty);
      }
    } else {
      NothingMore(u, norm, empty);
    }
  }

  lemma NothingMore(s: System, norm: Layout -> Layout, empty: Layout)
    ensures CanRun(s, [], norm, empty) && Run(s, [], norm, empty) == s
  {
  }

  /** The sends that the end of a reload adds are those of the reloaded layout. */
  lemma ReloadSends(k: Client, id: nat, norm: Layout -> Layout, empty: Layout)
    requires Complete(k.reload)
    ensures var n := FinishReload(k, id, norm, empty);
      && n.floor == k.submits && (forall m :: WasSent(n, m) <==> WasSent(k, m))
  {
    hide Loaded;
    var n := FinishReload(k, id, norm, empty);
    forall m
      ensures WasSent(n, m) <==> WasSent(k, m)
    {
      if n.sends != k.sends {
        SentMore(k, n, n.sends[|k.sends|], m);
      }
    }
  }

  /** From any state of any run with a reload about to end: what is submitted now is lost. */
  lemma SubmitDuringReloadIsLost(
    s: System, events: seq<Event>, c: nat, body: Layout, norm: Layout -> Layout, empty: Layout)
    requires Init(s) && CanRun(s, events, norm, empty) && c < |Run(s, events, norm, empty).clients|
    requires Complete(Run(s, events, norm, empty).clients[c].reload)
    ensures var t := Run(s, events, norm, empty);
      var u := Step(t, Submit(c, body), norm, empty);
      && Enabled(u, ReloadDone(c))
      && c < |Step(u, ReloadDone(c), norm, empty).clients|
      && NeverSent(Step(u, ReloadDone(c), norm, empty), c, t.clients[c].submits + 1, norm, empty)
  {
    hide Run, CanRun, MarkTells, Loaded, NeverSent;
    ReachableTells(s, events, c, norm, empty);
    var t := Run(s, events, norm, empty);
    var u := Step(t, Submit(c, body), norm, empty);
    StepKeeps(t, Submit(c, body), norm, empty);
    StepTells(t, Submit(c, body), c, norm, empty);
    SubmitIsMarked(t, c, body, norm, empty);
    ReloadLoses(u, c, norm, empty);
  }

  lemma SubmitIsMarked(t: System, c: nat, body: Layout, norm: Layout -> Layout, empty: Layout)
    requires Inv(t, norm) && c < |t.clients| && Complete(t.clients[c].reload)
    ensures var u := Step(t, Submit(c, body), norm, empty);
      && u.clients[c].queue.rerun && u.clients[c].reload == t.clients[c].reload
      && u.clients[c].submits == t.clients[c].submits + 1 && u.clients[c].floor == t.clients[c].floor
      && u.clients[c].floor <= t.clients[c].submits
  {
    assert ClientInv(t.first, t.log, c, t.clients[c]);
  }
}
