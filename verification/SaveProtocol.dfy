/** Any number of save queues against the one stored home layout. */
module SaveProtocol {
  import opened Text
  import opened HomeStore
  import Q = SaveQueue

  /** A layout as the JSON text the server stores. */
  type Layout = string

  /** Where a layout in a queue came from: its `n`th submit, or a reload after `n` submits. */
  datatype Origin = Submitted(n: nat) | Reloaded(n: nat)

  datatype Item = Item(body: Layout, origin: Origin)

  /** What last set a client's revision. A load remembers which version its layout row was. */
  datatype Source = Initial | FromSave | FromLoad(layoutVersion: nat)

  /** A save on the wire. `known`: when sent, its client had saved or loaded version `base`. */
  datatype Request = Request(client: nat, base: nat, item: Item, source: Source, known: bool)

  datatype Net = Quiet | Sent(req: Request) | Answered(req: Request, outcome: Outcome)

  /** A load in progress: the server reads the layout row and the revision row separately. */
  datatype Reads = Reads(layout: Option<(nat, Option<Layout>)>, revision: Option<Option<string>>)

  /** A save that was started, and how many submits the last finished reload had seen. */
  datatype Send = Send(item: Item, floor: nat)

  datatype Client = Client(
    queue: Q.Queue<Item>,
    net: Net,
    page: Option<Reads>,
    reload: Option<Reads>,
    source: Source,
    saved: set<nat>,
    loaded: set<nat>,
    submits: nat,
    saves: nat,
    floor: nat,
    clean: bool,
    acked: Option<nat>,
    sends: seq<Send>)

  /** `log` lists the accepted writes; `abandoned` the requests whose client stopped waiting. */
  datatype System = System(
    first: Rows<Layout>,
    rows: Rows<Layout>,
    log: seq<Request>,
    clients: seq<Client>,
    abandoned: seq<Request>)

  datatype Event =
    | Submit(c: nat, body: Layout)
    | Handle(c: nat)
    | Deliver(c: nat)
    | Lose(c: nat)
    | HandleAbandoned(i: nat)
    | PageStart(c: nat)
    | PageReadLayout(c: nat)
    | PageReadRevision(c: nat)
    | PageAdopt(c: nat)
    | ReloadReadLayout(c: nat)
    | ReloadReadRevision(c: nat)
    | ReloadDone(c: nat)

  // ---- Steps of one client

  function Knows(k: Client, version: nat): bool {
    version in k.saved || version in k.loaded
  }

  /** Takes over the queue's turn and puts the save it issues on the wire. */
  function Apply(k: Client, id: nat, turn: Q.Turn<Item>): Client {
    match turn.call
    case None => k.(queue := turn.queue)
    case Some(call) =>
      k.(queue := turn.queue,
         net := Sent(Request(id, call.revision, call.layout, k.source, Knows(k, call.revision))),
         saves := k.saves + 1,
         sends := k.sends + [Send(call.layout, k.floor)])
  }

  function SubmitAt(k: Client, id: nat, body: Layout): Client {
    var item := Item(body, Submitted(k.submits + 1));
    Apply(k.(submits := k.submits + 1), id, Q.OnSubmit(k.queue, item))
  }

  function Acknowledge(k: Client, id: nat, revision: nat): Client
    requires k.queue.at.AwaitSave? && k.queue.latest.Some?
  {
    Apply(k.(net := Quiet, source := FromSave, saved := k.saved + {revision}, acked := Some(revision)),
          id, Q.OnSaved(k.queue, revision))
  }

  function Fail(k: Client, id: nat): Client {
    Apply(k.(net := Quiet, clean := false), id, Q.OnFailed(k.queue))
  }

  function Refuse(k: Client): Client {
    k.(net := Quiet, clean := false, queue := Q.OnConflict(k.queue), reload := Some(Reads(None, None)))
  }

  predicate Complete(r: Option<Reads>) {
    r.Some? && r.value.layout.Some? && r.value.revision.Some?
  }

  /** The state the two rows of a load amount to. */
  function Loaded(r: Reads, norm: Layout -> Layout, empty: Layout): State<Layout>
    requires r.layout.Some? && r.revision.Some?
  {
    ReadState(Rows(r.layout.value.1, r.revision.value), norm, empty)
  }

  function Adopt(k: Client, norm: Layout -> Layout, empty: Layout): Client
    requires Complete(k.page)
  {
    var version := k.page.value.layout.value.0;
    k.(queue := k.queue.(revision := Loaded(k.page.value, norm, empty).revision),
       source := FromLoad(version), loaded := k.loaded + {version}, page := None)
  }

  function FinishReload(k: Client, id: nat, norm: Layout -> Layout, empty: Layout): Client
    requires Complete(k.reload)
  {
    var version := k.reload.value.layout.value.0;
    var state := Loaded(k.reload.value, norm, empty);
    Apply(k.(source := FromLoad(version), loaded := k.loaded + {version}, reload := None, floor := k.submits),
          id, Q.OnReloaded(k.queue, Item(state.layout, Reloaded(k.submits)), state.revision))
  }

  // ---- Steps of the system

  function Base(s: System): nat {
    CurrentRevision(s.first)
  }

  function Now(s: System): nat {
    Base(s) + |s.log|
  }

  /** The server transaction for one request. */
  function Transact(s: System, req: Request, norm: Layout -> Layout): (Outcome, System) {
    var (outcome, rows) := WriteRows(s.rows, Some(req.base), norm(req.item.body));
    (outcome, if outcome == Conflict then s else s.(rows := rows, log := s.log + [req]))
  }

  function SetClient(s: System, c: nat, k: Client): System
    requires c < |s.clients|
  {
    s.(clients := s.clients[c := k])
  }

  predicate Enabled(s: System, e: Event) {
    match e
    case HandleAbandoned(i) => i < |s.abandoned|
    case _ =>
      && e.c < |s.clients|
      && var k := s.clients[e.c];
         match e
         case Handle(_) => k.net.Sent?
         case Deliver(_) => k.net.Answered? && k.queue.at.AwaitSave? && k.queue.latest.Some?
         case Lose(_) => k.net != Quiet
         case PageReadLayout(_) => k.page.Some?
         case PageReadRevision(_) => k.page.Some?
         case PageAdopt(_) => Complete(k.page)
         case ReloadReadLayout(_) => k.reload.Some?
         case ReloadReadRevision(_) => k.reload.Some?
         case ReloadDone(_) => Complete(k.reload)
         case _ => true
  }

  function LayoutNow(s: System, r: Reads): Reads {
    if r.layout.Some? then r else r.(layout := Some((Now(s), s.rows.layout)))
  }

  function RevisionNow(s: System, r: Reads): Reads {
    if r.revision.Some? then r else r.(revision := Some(s.rows.revision))
  }

  function Step(s: System, e: Event, norm: Layout -> Layout, empty: Layout): System
    requires Enabled(s, e)
  {
    match e
    case HandleAbandoned(i) =>
      var (_, next) := Transact(s, s.abandoned[i], norm);
      next.(abandoned := s.abandoned[..i] + s.abandoned[i + 1..])
    case Submit(c, body) => SetClient(s, c, SubmitAt(s.clients[c], c, body))
    case Handle(c) =>
      var k := s.clients[c];
      var (outcome, next) := Transact(s, k.net.req, norm);
      SetClient(next, c, k.(net := Answered(k.net.req, outcome)))
    case Deliver(c) =>
      var k := s.clients[c];
      SetClient(s, c, match k.net.outcome
                      case Conflict => Refuse(k)
                      case Written(revision) => Acknowledge(k, c, revision))
    case Lose(c) =>
      var k := s.clients[c];
      var next := SetClient(s, c, Fail(k, c));
      if k.net.Sent? then next.(abandoned := s.abandoned + [k.net.req]) else next
    case PageStart(c) => SetClient(s, c, s.clients[c].(page := Some(Reads(None, None))))
    case PageReadLayout(c) => SetClient(s, c, s.clients[c].(page := Some(LayoutNow(s, s.clients[c].page.value))))
    case PageReadRevision(c) => SetClient(s, c, s.clients[c].(page := Some(RevisionNow(s, s.clients[c].page.value))))
    case PageAdopt(c) => SetClient(s, c, Adopt(s.clients[c], norm, empty))
    case ReloadReadLayout(c) => SetClient(s, c, s.clients[c].(reload := Some(LayoutNow(s, s.clients[c].reload.value))))
    case ReloadReadRevision(c) => SetClient(s, c, s.clients[c].(reload := Some(RevisionNow(s, s.clients[c].reload.value))))
    case ReloadDone(c) => SetClient(s, c, FinishReload(s.clients[c], c, norm, empty))
  }

  function NewClient(): Client {
    Client(Q.Fresh(), Quiet, None, None, Initial, {}, {}, 0, 0, 0, true, None, [])
  }

  /** The server always writes the two rows together. */
  predicate RowsFit(rows: Rows<Layout>) {
    rows.layout.None? ==> RevisionOf(rows.revision) == 0
  }

  predicate Init(s: System) {
    && RowsFit(s.first) && s.rows == s.first && s.log == [] && s.abandoned == []
    && forall c :: 0 <= c < |s.clients| ==> s.clients[c] == NewClient()
  }

  predicate CanRun(s: System, events: seq<Event>, norm: Layout -> Layout, empty: Layout)
    decreases |events|
  {
    events != [] ==> Enabled(s, events[0]) && CanRun(Step(s, events[0], norm, empty), events[1..], norm, empty)
  }

  /** The state after any sequence of enabled events, in any interleaving. */
  function Run(s: System, events: seq<Event>, norm: Layout -> Layout, empty: Layout): System
    requires CanRun(s, events, norm, empty)
    decreases |events|
  {
    if events == [] then s else Run(Step(s, events[0], norm, empty), events[1..], norm, empty)
  }

  // ---- The invariant

  /** The rows as version `v` left them. */
  function RowsAt(first: Rows<Layout>, log: seq<Request>, v: nat, norm: Layout -> Layout): Rows<Layout>
    requires CurrentRevision(first) <= v <= CurrentRevision(first) + |log|
  {
    if v == CurrentRevision(first) then first
    else Rows(Some(norm(log[v - CurrentRevision(first) - 1].item.body)), Some(Decimal(v)))
  }

  ghost predicate ReadsInv(first: Rows<Layout>, log: seq<Request>, r: Option<Reads>) {
    var base := CurrentRevision(first);
    r.Some? ==>
      && (r.value.layout.Some? ==> base <= r.value.layout.value.0 <= base + |log|)
      && (r.value.revision.Some? ==> RevisionOf(r.value.revision.value) <= base + |log|)
  }

  /** A revision is vouched for, or its origin explains why it is not. */
  ghost predicate SourceInv(first: Rows<Layout>, log: seq<Request>, revision: nat, source: Source, known: bool) {
    var now := CurrentRevision(first) + |log|;
    match source
    case Initial => revision == 0 && !known
    case FromSave => revision <= now && known
    case FromLoad(v) => revision <= now && v <= now && (v == revision ==> known)
  }

  ghost predicate RequestInv(first: Rows<Layout>, log: seq<Request>, req: Request) {
    SourceInv(first, log, req.base, req.source, req.known)
  }

  ghost predicate Landed(first: Rows<Layout>, log: seq<Request>, id: nat, revision: nat) {
    var base := CurrentRevision(first);
    base < revision <= base + |log| && log[revision - base - 1].client == id
  }

  ghost predicate NetInv(first: Rows<Layout>, log: seq<Request>, id: nat, k: Client) {
    var base := CurrentRevision(first);
    && (k.net != Quiet <==> k.queue.at.AwaitSave?)
    && (k.net != Quiet ==>
          && k.net.req.client == id && k.net.req.item == k.queue.at.snapshot
          && RequestInv(first, log, k.net.req))
    && (k.net.Answered? && k.net.outcome.Written? ==>
          Landed(first, log, id, k.net.outcome.revision) && log[k.net.outcome.revision - base - 1] == k.net.req)
  }

  ghost predicate CountInv(k: Client) {
    && k.saves == |k.sends|
    && k.saves + (if k.queue.rerun then 1 else 0) <= k.submits
    && k.floor <= k.submits
    && (forall x <- k.sends :: x.item.origin.Submitted? ==> x.floor < x.item.origin.n)
    && (k.queue.latest.Some? ==>
          match k.queue.latest.value.origin
          case Submitted(n) => k.floor < n <= k.submits
          case Reloaded(n) => n == k.floor)
  }

  ghost predicate CleanInv(first: Rows<Layout>, log: seq<Request>, id: nat, k: Client) {
    var base := CurrentRevision(first);
    k.clean ==>
      && k.queue.at != Q.AwaitReload
      && (k.submits > 0 <==> k.queue.latest.Some?)
      && (k.submits > 0 ==> k.queue.latest.value.origin == Submitted(k.submits))
      && (k.submits > 0 && !k.queue.inflight ==>
            && k.acked.Some? && Landed(first, log, id, k.acked.value)
            && Some(log[k.acked.value - base - 1].item) == k.queue.latest)
  }

  ghost predicate ClientInv(first: Rows<Layout>, log: seq<Request>, id: nat, k: Client) {
    var base := CurrentRevision(first);
    && Q.Valid(k.queue)
    && (k.reload.Some? <==> k.queue.at == Q.AwaitReload)
    && ReadsInv(first, log, k.page) && ReadsInv(first, log, k.reload)
    && SourceInv(first, log, k.queue.revision, k.source, Knows(k, k.queue.revision))
    && (k.source == Initial ==> k.saved == {} && k.loaded == {})
    && (forall v <- k.saved :: Landed(first, log, id, v))
    && (forall v <- k.loaded :: v <= base + |log|)
    && NetInv(first, log, id, k)
    && CountInv(k)
    && CleanInv(first, log, id, k)
  }

  /** Every accepted write follows on the version its client named. */
  ghost predicate LogInv(first: Rows<Layout>, log: seq<Request>) {
    forall i :: 0 <= i < |log| ==>
      log[i].base == CurrentRevision(first) + i && Explained(log[i])
  }

  /** What a write's client knew of the layout it replaced: nothing before it took a revision from the
      server; all after a save, and after a load whose layout row was not older than its revision row. */
  ghost predicate Explained(w: Request) {
    match w.source
    case Initial => !w.known && w.base == 0
    case FromSave => w.known
    case FromLoad(v) => w.known || v < w.base
  }

  ghost predicate Inv(s: System, norm: Layout -> Layout) {
    && RowsFit(s.first)
    && s.rows == RowsAt(s.first, s.log, Now(s), norm)
    && LogInv(s.first, s.log)
    && (forall c :: 0 <= c < |s.clients| ==> ClientInv(s.first, s.log, c, s.clients[c]))
    && (forall i :: 0 <= i < |s.abandoned| ==> RequestInv(s.first, s.log, s.abandoned[i]))
  }

  lemma RowsRevision(first: Rows<Layout>, log: seq<Request>, v: nat, norm: Layout -> Layout)
    requires CurrentRevision(first) <= v <= CurrentRevision(first) + |log| && RowsFit(first)
    ensures CurrentRevision(RowsAt(first, log, v, norm)) == v
    ensures RevisionOf(RowsAt(first, log, v, norm).revision) == v
  {
    DecimalRoundTrip(v);
  }

  /** Growing the log keeps what is known about a client. */
  lemma ClientSurvives(first: Rows<Layout>, log: seq<Request>, req: Request, id: nat, k: Client)
    requires ClientInv(first, log, id, k)
    ensures ClientInv(first, log + [req], id, k)
  {
    forall v | v in k.saved ensures Landed(first, log + [req], id, v) {
      assert Landed(first, log, id, v);
    }
  }

  lemma TransactKeeps(s: System, req: Request, norm: Layout -> Layout)
    requires Inv(s, norm) && RequestInv(s.first, s.log, req)
    ensures var (outcome, next) := Transact(s, req, norm);
            && Inv(next, norm)
            && next.first == s.first && next.clients == s.clients && next.abandoned == s.abandoned
            && RequestInv(s.first, next.log, req)
            && (outcome.Written? ==>
                  && Landed(s.first, next.log, req.client, outcome.revision)
                  && next.log[outcome.revision - Base(s) - 1] == req)
  {
    var (outcome, next) := Transact(s, req, norm);
    RowsRevision(s.first, s.log, Now(s), norm);
    if outcome != Conflict {
      forall c | 0 <= c < |s.clients| ensures ClientInv(s.first, next.log, c, s.clients[c]) {
        ClientSurvives(s.first, s.log, req, c, s.clients[c]);
      }
    }
  }

  lemma ApplyKeeps(first: Rows<Layout>, log: seq<Request>, id: nat, k: Client, turn: Q.Turn<Item>)
    requires ReadsInv(first, log, k.page)
    requires k.reload.None? && !turn.queue.at.AwaitReload? && Q.Valid(turn.queue)
    requires SourceInv(first, log, turn.queue.revision, k.source, Knows(k, turn.queue.revision))
    requires k.source == Initial ==> k.saved == {} && k.loaded == {}
    requires forall v <- k.saved :: Landed(first, log, id, v)
    requires forall v <- k.loaded :: v <= CurrentRevision(first) + |log|
    requires k.net == Quiet || (NetInv(first, log, id, k) && k.queue.at == turn.queue.at && turn.call.None?)
    requires turn.call.None? ==> (k.net != Quiet <==> turn.queue.at.AwaitSave?)
    requires turn.call.Some? ==>
               && turn.queue.at == Q.AwaitSave(turn.call.value.layout)
               && turn.queue.latest == Some(turn.call.value.layout)
               && turn.call.value.revision == turn.queue.revision && !turn.queue.rerun
    requires k.saves == |k.sends|
    requires k.saves + (if turn.queue.rerun || turn.call.Some? then 1 else 0) <= k.submits
    requires CountInv(k.(queue := turn.queue.(rerun := false)))
    requires CleanInv(first, log, id, k.(queue := turn.queue))
    ensures ClientInv(first, log, id, Apply(k, id, turn))
  {
  }

  lemma SubmitKeeps(first: Rows<Layout>, log: seq<Request>, id: nat, k: Client, body: Layout)
    requires ClientInv(first, log, id, k)
    ensures ClientInv(first, log, id, SubmitAt(k, id, body))
  {
    hide ReadsInv, SourceInv, Landed;
    var item := Item(body, Submitted(k.submits + 1));
    if k.reload.None? {
      ApplyKeeps(first, log, id, k.(submits := k.submits + 1), Q.OnSubmit(k.queue, item));
    }
  }

  lemma AcknowledgeKeeps(first: Rows<Layout>, log: seq<Request>, id: nat, k: Client)
    requires ClientInv(first, log, id, k) && k.net.Answered? && k.net.outcome.Written?
    ensures ClientInv(first, log, id, Acknowledge(k, id, k.net.outcome.revision))
  {
    var r := k.net.outcome.revision;
    ApplyKeeps(first, log, id, k.(net := Quiet, source := FromSave, saved := k.saved + {r}, acked := Some(r)),
               Q.OnSaved(k.queue, r));
  }

  lemma FailKeeps(first: Rows<Layout>, log: seq<Request>, id: nat, k: Client)
    requires ClientInv(first, log, id, k) && k.net != Quiet
    ensures ClientInv(first, log, id, Fail(k, id))
  {
    ApplyKeeps(first, log, id, k.(net := Quiet, clean := false), Q.OnFailed(k.queue));
  }

  lemma LoadedRevision(first: Rows<Layout>, log: seq<Request>, r: Reads, norm: Layout -> Layout, empty: Layout)
    requires ReadsInv(first, log, Some(r)) && r.layout.Some? && r.revision.Some?
    ensures Loaded(r, norm, empty).revision <= CurrentRevision(first) + |log|
  {
  }

  lemma ReloadKeeps(first: Rows<Layout>, log: seq<Request>, id: nat, k: Client, norm: Layout -> Layout, empty: Layout)
    requires ClientInv(first, log, id, k) && Complete(k.reload)
    ensures ClientInv(first, log, id, FinishReload(k, id, norm, empty))
  {
    var version := k.reload.value.layout.value.0;
    var state := Loaded(k.reload.value, norm, empty);
    LoadedRevision(first, log, k.reload.value, norm, empty);
    ApplyKeeps(first, log, id,
               k.(source := FromLoad(version), loaded := k.loaded + {version}, reload := None, floor := k.submits),
               Q.OnReloaded(k.queue, Item(state.layout, Reloaded(k.submits)), state.revision));
  }

  lemma ReadsKeep(s: System, r: Reads, norm: Layout -> Layout)
    requires Inv(s, norm) && ReadsInv(s.first, s.log, Some(r))
    ensures ReadsInv(s.first, s.log, Some(LayoutNow(s, r)))
    ensures ReadsInv(s.first, s.log, Some(RevisionNow(s, r)))
  {
    RowsRevision(s.first, s.log, Now(s), norm);
  }

  lemma SetClientKeeps(s: System, c: nat, k: Client, norm: Layout -> Layout)
    requires Inv(s, norm) && c < |s.clients| && ClientInv(s.first, s.log, c, k)
    ensures Inv(SetClient(s, c, k), norm)
  {
  }

  lemma DeliverKeeps(s: System, c: nat, norm: Layout -> Layout, empty: Layout)
    requires Inv(s, norm) && Enabled(s, Deliver(c))
    ensures Inv(Step(s, Deliver(c), norm, empty), norm)
  {
    var k := s.clients[c];
    if k.net.outcome.Written? {
      AcknowledgeKeeps(s.first, s.log, c, k);
      SetClientKeeps(s, c, Acknowledge(k, c, k.net.outcome.revision), norm);
    } else {
      SetClientKeeps(s, c, Refuse(k), norm);
    }
  }

  lemma HandleKeeps(s: System, c: nat, norm: Layout -> Layout, empty: Layout)
    requires Inv(s, norm) && Enabled(s, Handle(c))
    ensures Inv(Step(s, Handle(c), norm, empty), norm)
  {
    var k := s.clients[c];
    TransactKeeps(s, k.net.req, norm);
    var (outcome, next) := Transact(s, k.net.req, norm);
    assert ClientInv(next.first, next.log, c, next.clients[c]);
    SetClientKeeps(next, c, k.(net := Answered(k.net.req, outcome)), norm);
  }

  lemma LoseKeeps(s: System, c: nat, norm: Layout -> Layout, empty: Layout)
    requires Inv(s, norm) && Enabled(s, Lose(c))
    ensures Inv(Step(s, Lose(c), norm, empty), norm)
  {
    var k := s.clients[c];
    FailKeeps(s.first, s.log, c, k);
    SetClientKeeps(s, c, Fail(k, c), norm);
  }

  lemma PageKeeps(first: Rows<Layout>, log: seq<Request>, id: nat, k: Client, page: Reads)
    requires ClientInv(first, log, id, k) && ReadsInv(first, log, Some(page))
    ensures ClientInv(first, log, id, k.(page := Some(page)))
  {
  }

  lemma ReloadReadsKeep(first: Rows<Layout>, log: seq<Request>, id: nat, k: Client, reload: Reads)
    requires ClientInv(first, log, id, k) && ReadsInv(first, log, Some(reload)) && k.reload.Some?
    ensures ClientInv(first, log, id, k.(reload := Some(reload)))
  {
  }

  lemma AdoptKeeps(first: Rows<Layout>, log: seq<Request>, id: nat, k: Client, norm: Layout -> Layout, empty: Layout)
    requires ClientInv(first, log, id, k) && Complete(k.page)
    ensures ClientInv(first, log, id, Adopt(k, norm, empty))
  {
    LoadedRevision(first, log, k.page.value, norm, empty);
    var next := Adopt(k, norm, empty);
    assert SourceInv(first, log, next.queue.revision, next.source, Knows(next, next.queue.revision));
    assert NetInv(first, log, id, next) && CountInv(next) && CleanInv(first, log, id, next);
  }

  lemma PageStepKeeps(s: System, c: nat, page: Reads, norm: Layout -> Layout)
    requires Inv(s, norm) && c < |s.clients| && ReadsInv(s.first, s.log, Some(page))
    ensures Inv(SetClient(s, c, s.clients[c].(page := Some(page))), norm)
  {
    PageKeeps(s.first, s.log, c, s.clients[c], page);
    SetClientKeeps(s, c, s.clients[c].(page := Some(page)), norm);
  }

  lemma ReloadStepKeeps(s: System, c: nat, reload: Reads, norm: Layout -> Layout)
    requires Inv(s, norm) && c < |s.clients| && ReadsInv(s.first, s.log, Some(reload)) && s.clients[c].reload.Some?
    ensures Inv(SetClient(s, c, s.clients[c].(reload := Some(reload))), norm)
  {
    ReloadReadsKeep(s.first, s.log, c, s.clients[c], reload);
    SetClientKeeps(s, c, s.clients[c].(reload := Some(reload)), norm);
  }

  /** The row reads of page loads and reloads. */
  lemma ReadStepKeeps(s: System, e: Event, norm: Layout -> Layout, empty: Layout)
    requires Inv(s, norm) && Enabled(s, e)
    requires e.PageStart? || e.PageReadLayout? || e.PageReadRevision? || e.ReloadReadLayout? || e.ReloadReadRevision?
    ensures Inv(Step(s, e, norm, empty), norm)
  {
    var k := s.clients[e.c];
    assert ClientInv(s.first, s.log, e.c, k);
    match e
    case PageStart(c) => PageStepKeeps(s, c, Reads(None, None), norm);
    case PageReadLayout(c) =>
      ReadsKeep(s, k.page.value, norm);
      PageStepKeeps(s, c, LayoutNow(s, k.page.value), norm);
    case PageReadRevision(c) =>
      ReadsKeep(s, k.page.value, norm);
      PageStepKeeps(s, c, RevisionNow(s, k.page.value), norm);
    case ReloadReadLayout(c) =>
      ReadsKeep(s, k.reload.value, norm);
      ReloadStepKeeps(s, c, LayoutNow(s, k.reload.value), norm);
    case ReloadReadRevision(c) =>
      ReadsKeep(s, k.reload.value, norm);
      ReloadStepKeeps(s, c, RevisionNow(s, k.reload.value), norm);
  }

  lemma AbandonedKeeps(s: System, i: nat, norm: Layout -> Layout, empty: Layout)
    requires Inv(s, norm) && Enabled(s, HandleAbandoned(i))
    ensures Inv(Step(s, HandleAbandoned(i), norm, empty), norm)
  {
    TransactKeeps(s, s.abandoned[i], norm);
  }

  /** A submit, an adopted page load or a finished reload. */
  lemma LocalStepKeeps(s: System, e: Event, norm: Layout -> Layout, empty: Layout)
    requires Inv(s, norm) && Enabled(s, e)
    requires e.Submit? || e.PageAdopt? || e.ReloadDone?
    ensures Inv(Step(s, e, norm, empty), norm)
  {
    var k := s.clients[e.c];
    assert ClientInv(s.first, s.log, e.c, k);
    match e
    case Submit(c, body) =>
      SubmitKeeps(s.first, s.log, c, k, body);
      SetClientKeeps(s, c, SubmitAt(k, c, body), norm);
    case PageAdopt(c) =>
      AdoptKeeps(s.first, s.log, c, k, norm, empty);
      SetClientKeeps(s, c, Adopt(k, norm, empty), norm);
    case ReloadDone(c) =>
      ReloadKeeps(s.first, s.log, c, k, norm, empty);
      SetClientKeeps(s, c, FinishReload(k, c, norm, empty), norm);
  }

  /** Every step keeps the invariant. */
  lemma StepKeeps(s: System, e: Event, norm: Layout -> Layout, empty: Layout)
    requires Inv(s, norm) && Enabled(s, e)
    ensures Inv(Step(s, e, norm, empty), norm)
  {
    if e.HandleAbandoned? {
      AbandonedKeeps(s, e.i, norm, empty);
    } else if e.Submit? || e.PageAdopt? || e.ReloadDone? {
      LocalStepKeeps(s, e, norm, empty);
    } else if e.Handle? {
      HandleKeeps(s, e.c, norm, empty);
    } else if e.Deliver? {
      DeliverKeeps(s, e.c, norm, empty);
    } else if e.Lose? {
      LoseKeeps(s, e.c, norm, empty);
    } else {
      ReadStepKeeps(s, e, norm, empty);
    }
  }

  lemma {:induction false} RunKeeps(s: System, events: seq<Event>, norm: Layout -> Layout, empty: Layout)
    requires Inv(s, norm) && CanRun(s, events, norm, empty)
    ensures Inv(Run(s, events, norm, empty), norm)
    decreases |events|
  {
    hide Step, Inv;
    if events != [] {
      StepKeeps(s, events[0], norm, empty);
      RunKeeps(Step(s, events[0], norm, empty), events[1..], norm, empty);
    }
  }
}
