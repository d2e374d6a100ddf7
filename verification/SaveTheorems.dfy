/** What every run of the save queues and the store guarantees, and where the guarantee ends. */
module SaveTheorems {
  import opened Text
  import opened HomeStore
  import opened SaveProtocol
  import Q = SaveQueue

  lemma InitInv(s: System, norm: Layout -> Layout)
    requires Init(s)
    ensures Inv(s, norm)
  {
    forall c | 0 <= c < |s.clients| ensures ClientInv(s.first, s.log, c, s.clients[c]) {
      assert s.clients[c] == NewClient();
    }
  }

  lemma Reachable(s: System, events: seq<Event>, norm: Layout -> Layout, empty: Layout)
    requires Init(s) && CanRun(s, events, norm, empty)
    ensures Inv(Run(s, events, norm, empty), norm)
    ensures Run(s, events, norm, empty).first == s.first
  {
    InitInv(s, norm);
    RunKeeps(s, events, norm, empty);
    FirstStays(s, events, norm, empty);
  }

  lemma {:induction false} FirstStays(s: System, events: seq<Event>, norm: Layout -> Layout, empty: Layout)
    requires CanRun(s, events, norm, empty)
    ensures Run(s, events, norm, empty).first == s.first
    decreases |events|
  {
    if events != [] {
      FirstStays(Step(s, events[0], norm, empty), events[1..], norm, empty);
    }
  }

  /** In every run the accepted writes form one chain: write `i` replaces version `Base + i`, nothing
      is lost between them, and a reader sees the last one at the matching revision. */
  lemma WritesFormAChain(s: System, events: seq<Event>, norm: Layout -> Layout, empty: Layout)
    requires Init(s) && CanRun(s, events, norm, empty)
    ensures var t := Run(s, events, norm, empty);
            && (forall i :: 0 <= i < |t.log| ==> t.log[i].base == Base(s) + i)
            && ReadState(t.rows, norm, empty).revision == Base(s) + |t.log|
            && (t.log != [] ==> ReadState(t.rows, norm, empty).layout == norm(norm(t.log[|t.log| - 1].item.body)))
            && (t.log == [] ==> t.rows == s.rows)
  {
    Reachable(s, events, norm, empty);
    var t := Run(s, events, norm, empty);
    RowsRevision(t.first, t.log, Now(t), norm);
  }

  /** An accepted write replaces a layout its client had saved or loaded, except that a client which
      never took a revision from the server always writes blindly, over revision 0, and that one whose
      last load mixed an older layout row with a newer revision row may. */
  lemma WritesReplaceKnownLayouts(s: System, events: seq<Event>, norm: Layout -> Layout, empty: Layout)
    requires Init(s) && CanRun(s, events, norm, empty)
    ensures forall w <- Run(s, events, norm, empty).log ::
              && (w.source == Initial ==> !w.known && w.base == 0)
              && (!w.known ==> w.source == Initial || (w.source.FromLoad? && w.source.layoutVersion < w.base))
  {
    Reachable(s, events, norm, empty);
    var t := Run(s, events, norm, empty);
    forall w | w in t.log ensures Explained(w) {
      var i :| 0 <= i < |t.log| && t.log[i] == w;
    }
  }

  lemma SavedIsOwn(s: System, norm: Layout -> Layout, c: nat, v: nat)
    requires Inv(s, norm) && c < |s.clients| && v in s.clients[c].saved
    ensures Landed(s.first, s.log, c, v)
  {
    hide SourceInv, ReadsInv, NetInv, CountInv, CleanInv, LogInv, RequestInv;
    assert ClientInv(s.first, s.log, c, s.clients[c]);
  }

  /** A version counted as saved is one this client wrote. */
  lemma SavedVersionsAreOwn(s: System, events: seq<Event>, norm: Layout -> Layout, empty: Layout, c: nat, v: nat)
    requires Init(s) && CanRun(s, events, norm, empty)
    requires c < |Run(s, events, norm, empty).clients| && v in Run(s, events, norm, empty).clients[c].saved
    ensures var t := Run(s, events, norm, empty);
            Base(s) < v <= Base(s) + |t.log| && t.log[v - Base(s) - 1].client == c
  {
    Reachable(s, events, norm, empty);
    hide Run, CanRun, Inv;
    SavedIsOwn(Run(s, events, norm, empty), norm, c, v);
  }

  /** No layout submitted before a reload finished is sent after it, and no run starts more saves
      than there were submits, whatever fails. */
  lemma SendsAreFresh(s: System, events: seq<Event>, norm: Layout -> Layout, empty: Layout, c: nat)
    requires Init(s) && CanRun(s, events, norm, empty) && c < |Run(s, events, norm, empty).clients|
    ensures var k := Run(s, events, norm, empty).clients[c];
            && (forall x <- k.sends :: x.item.origin.Submitted? ==> x.floor < x.item.origin.n)
            && |k.sends| == k.saves <= k.submits
  {
    Reachable(s, events, norm, empty);
    var t := Run(s, events, norm, empty);
    assert ClientInv(t.first, t.log, c, t.clients[c]);
  }

  /** A queue that met no error goes idle only when its last submitted layout is stored. */
  lemma IdleMeansStored(s: System, events: seq<Event>, norm: Layout -> Layout, empty: Layout, c: nat)
    requires Init(s) && CanRun(s, events, norm, empty) && c < |Run(s, events, norm, empty).clients|
    requires var k := Run(s, events, norm, empty).clients[c];
             k.clean && k.submits > 0 && !k.queue.inflight
    ensures var t := Run(s, events, norm, empty);
            var k := t.clients[c];
            exists i :: 0 <= i < |t.log| && t.log[i].client == c && t.log[i].item.origin == Submitted(k.submits)
  {
    Reachable(s, events, norm, empty);
    var t := Run(s, events, norm, empty);
    var k := t.clients[c];
    assert ClientInv(t.first, t.log, c, k);
    var i := k.acked.value - Base(s) - 1;
    assert t.log[i].client == c && t.log[i].item.origin == Submitted(k.submits);
  }

  // ---- Where the guarantee ends

  /** An idle client whose revision is current overwrites the current layout with its next submit. */
  lemma NextSubmitOverwrites(s: System, c: nat, body: Layout, norm: Layout -> Layout, empty: Layout)
    requires c < |s.clients| && !s.clients[c].queue.inflight
    requires s.clients[c].queue.revision == CurrentRevision(s.rows)
    ensures var events := [Submit(c, body), Handle(c)];
            CanRun(s, events, norm, empty) &&
            var t := Run(s, events, norm, empty);
            var k := s.clients[c];
            && t.log == s.log + [Request(c, k.queue.revision, Item(body, Submitted(k.submits + 1)), k.source,
                                         Knows(k, k.queue.revision))]
            && t.rows.layout == Some(norm(body))
  {
    var s1 := Step(s, Submit(c, body), norm, empty);
    assert s1.clients[c].net.Sent?;
    var s2 := Step(s1, Handle(c), norm, empty);
    Cons(s1, Handle(c), [], [Handle(c)], norm, empty);
    Cons(s, Submit(c, body), [Handle(c)], [Submit(c, body), Handle(c)], norm, empty);
  }

  /** A client that never took a revision from the server overwrites any layout stored at revision 0. */
  lemma FirstWriteCanBeBlind(s: System, c: nat, body: Layout, norm: Layout -> Layout, empty: Layout)
    requires Init(s) && c < |s.clients| && s.first.layout.Some? && Base(s) == 0
    ensures var events := [Submit(c, body), Handle(c)];
            CanRun(s, events, norm, empty) &&
            var t := Run(s, events, norm, empty);
            |t.log| == 1 && !t.log[0].known && t.rows.layout == Some(norm(body))
  {
    assert s.clients[c] == NewClient();
    NextSubmitOverwrites(s, c, body, norm, empty);
  }

  /** A page load whose row reads have another client's write between them. */
  function TornLoad(c: nat, d: nat): seq<Event> {
    [PageStart(c), PageReadLayout(c), Handle(d), PageReadRevision(c), PageAdopt(c)]
  }

  /** The server answers a request that names the current revision. */
  lemma HandleCurrent(s: System, d: nat, norm: Layout -> Layout, empty: Layout)
    requires d < |s.clients| && s.clients[d].net.Sent? && s.clients[d].net.req.base == CurrentRevision(s.rows)
    ensures var now := CurrentRevision(s.rows);
            var req := s.clients[d].net.req;
            && Enabled(s, Handle(d))
            && Step(s, Handle(d), norm, empty)
               == s.(rows := Rows(Some(norm(req.item.body)), Some(Decimal(now + 1))), log := s.log + [req],
                     clients := s.clients[d := s.clients[d].(net := Answered(req, Written(now + 1)))])
  {
  }

  lemma Cons(s: System, e: Event, rest: seq<Event>, events: seq<Event>, norm: Layout -> Layout, empty: Layout)
    requires events == [e] + rest
    requires Enabled(s, e) && CanRun(Step(s, e, norm, empty), rest, norm, empty)
    ensures CanRun(s, events, norm, empty)
    ensures Run(s, events, norm, empty) == Run(Step(s, e, norm, empty), rest, norm, empty)
  {
    hide Step, Enabled;
    assert events[1..] == rest;
  }

  /** The page load of client `c` around a write of client `d`, from the layout row read on. */
  lemma ReadAroundWrite(s: System, c: nat, d: nat, norm: Layout -> Layout, empty: Layout)
    requires c < |s.clients| && d < |s.clients| && c != d && s.clients[c].page == Some(Reads(None, None))
    requires CurrentRevision(s.rows) == Now(s) && s.rows.layout.Some?
    requires s.clients[d].net.Sent? && s.clients[d].net.req.base == Now(s)
    ensures Enabled(s, PageReadLayout(c))
    ensures var s2 := Step(s, PageReadLayout(c), norm, empty);
            Enabled(s2, Handle(d)) &&
            var s3 := Step(s2, Handle(d), norm, empty);
            && s3.log == s.log + [s.clients[d].net.req] && |s3.clients| == |s.clients|
            && s3.rows.revision == Some(Decimal(Now(s) + 1)) && s3.rows.layout.Some?
            && s3.clients[c] == s.clients[c].(page := Some(Reads(Some((Now(s), s.rows.layout)), None)))
  {
    var s2 := Step(s, PageReadLayout(c), norm, empty);
    HandleCurrent(s2, d, norm, empty);
  }

  /** The rest of the load, when it has the layout row of version `v` and finds revision row `r`. */
  lemma AdoptTorn(s: System, c: nat, v: nat, r: nat, layout: Layout, norm: Layout -> Layout, empty: Layout)
    requires c < |s.clients| && s.clients[c].page == Some(Reads(Some((v, Some(layout))), None))
    requires s.rows.revision == Some(Decimal(r))
    ensures Enabled(s, PageReadRevision(c))
    ensures var s4 := Step(s, PageReadRevision(c), norm, empty);
            Enabled(s4, PageAdopt(c)) &&
            var s5 := Step(s4, PageAdopt(c), norm, empty);
            var k := s.clients[c];
            && s5.log == s.log && |s5.clients| == |s.clients| && s5.rows == s.rows
            && s5.clients[c] == k.(queue := k.queue.(revision := r), source := FromLoad(v),
                                   loaded := k.loaded + {v}, page := None)
  {
    DecimalRoundTrip(r);
  }

  lemma Five(s: System, s1: System, s2: System, s3: System, s4: System, s5: System,
             e1: Event, e2: Event, e3: Event, e4: Event, e5: Event, norm: Layout -> Layout, empty: Layout)
    requires Enabled(s, e1) && s1 == Step(s, e1, norm, empty)
    requires Enabled(s1, e2) && s2 == Step(s1, e2, norm, empty)
    requires Enabled(s2, e3) && s3 == Step(s2, e3, norm, empty)
    requires Enabled(s3, e4) && s4 == Step(s3, e4, norm, empty)
    requires Enabled(s4, e5) && s5 == Step(s4, e5, norm, empty)
    ensures CanRun(s, [e1, e2, e3, e4, e5], norm, empty) && Run(s, [e1, e2, e3, e4, e5], norm, empty) == s5
  {
    hide Step, Enabled;
    Cons(s4, e5, [], [e5], norm, empty);
    Cons(s3, e4, [e5], [e4, e5], norm, empty);
    Cons(s2, e3, [e4, e5], [e3, e4, e5], norm, empty);
    Cons(s1, e2, [e3, e4, e5], [e2, e3, e4, e5], norm, empty);
    Cons(s, e1, [e2, e3, e4, e5], [e1, e2, e3, e4, e5], norm, empty);
  }

  lemma CurrentRow(s: System, norm: Layout -> Layout)
    requires Inv(s, norm)
    ensures CurrentRevision(s.rows) == Now(s)
  {
    RowsRevision(s.first, s.log, Now(s), norm);
  }

  lemma PageOpens(s: System, c: nat, norm: Layout -> Layout, empty: Layout)
    requires c < |s.clients|
    ensures Enabled(s, PageStart(c))
    ensures Step(s, PageStart(c), norm, empty)
         == s.(clients := s.clients[c := s.clients[c].(page := Some(Reads(None, None)))])
  {
  }

  lemma TornLoadRuns(s: System, c: nat, d: nat, norm: Layout -> Layout, empty: Layout)
    requires Inv(s, norm) && c < |s.clients| && d < |s.clients| && c != d
    requires s.clients[d].net.Sent? && s.clients[d].net.req.base == Now(s) && s.rows.layout.Some?
    ensures CanRun(s, TornLoad(c, d), norm, empty)
    ensures var t := Run(s, TornLoad(c, d), norm, empty);
            var k := s.clients[c];
            && t.log == s.log + [s.clients[d].net.req] && |t.clients| == |s.clients|
            && CurrentRevision(t.rows) == Now(s) + 1
            && t.clients[c] == k.(queue := k.queue.(revision := Now(s) + 1), source := FromLoad(Now(s)),
                                  loaded := k.loaded + {Now(s)}, page := None)
  {
    CurrentRow(s, norm);
    PageOpens(s, c, norm, empty);
    DecimalRoundTrip(Now(s) + 1);
    hide Step, Enabled, Inv, CanRun, Run;
    var s1 := Step(s, PageStart(c), norm, empty);
    ReadAroundWrite(s1, c, d, norm, empty);
    var s2 := Step(s1, PageReadLayout(c), norm, empty);
    var s3 := Step(s2, Handle(d), norm, empty);
    AdoptTorn(s3, c, Now(s), Now(s) + 1, s.rows.layout.value, norm, empty);
    var s4 := Step(s3, PageReadRevision(c), norm, empty);
    var s5 := Step(s4, PageAdopt(c), norm, empty);
    Five(s, s1, s2, s3, s4, s5, PageStart(c), PageReadLayout(c), Handle(d), PageReadRevision(c), PageAdopt(c), norm, empty);
  }

  /** From any state of any run: if a write lands between the two row reads of a page load, the
      client that adopts this load overwrites that write with its next submit, without having seen it. */
  lemma TornLoadOverwrites(s: System, c: nat, d: nat, body: Layout, norm: Layout -> Layout, empty: Layout)
    requires Inv(s, norm) && c < |s.clients| && d < |s.clients| && c != d
    requires !s.clients[c].queue.inflight
    requires s.clients[d].net.Sent? && s.clients[d].net.req.base == Now(s) && s.rows.layout.Some?
    ensures CanRun(s, TornLoad(c, d), norm, empty)
    ensures var t := Run(s, TornLoad(c, d), norm, empty);
            CanRun(t, [Submit(c, body), Handle(c)], norm, empty) &&
            var u := Run(t, [Submit(c, body), Handle(c)], norm, empty);
            && |u.log| == |s.log| + 2 && u.log[|s.log|] == s.clients[d].net.req
            && u.log[|s.log| + 1].client == c && !u.log[|s.log| + 1].known
  {
    assert ClientInv(s.first, s.log, c, s.clients[c]);
    hide Step, Enabled;
    TornLoadRuns(s, c, d, norm, empty);
    var t := Run(s, TornLoad(c, d), norm, empty);
    assert !Knows(t.clients[c], Now(s) + 1) by {
      assert forall v <- s.clients[c].saved :: Landed(s.first, s.log, c, v);
    }
    NextSubmitOverwrites(t, c, body, norm, empty);
  }
}
