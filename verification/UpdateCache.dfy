/** The cached image checks: what a registry check writes, and how stale rows are pruned. */
module UpdateCache {
  import opened Text

  datatype Row = Row(
    name: string,
    image: string,
    current: Option<string>,
    remote: Option<string>,
    available: bool,
    error: Option<string>,
    checkedAt: nat)

  /** Rows by container id. */
  type Rows = map<string, Row>

  /** What JavaScript counts as true: present and not empty. */
  predicate Known(s: Option<string>) {
    s.Some? && s.value != ""
  }

  // ---- One registry check

  datatype Local = Inspected(digest: Option<string>) | InspectFailed(message: string)

  datatype Remote = Fetched(digest: Option<string>) | FetchFailed(message: string)

  datatype Probe = Probe(name: string, image: string, local: Local, remote: Remote, now: nat)

  predicate Contains(s: string, part: string) {
    exists i :: 0 <= i <= |s| - |part| && StartsAt(s, part, i)
  }

  predicate StartsAt(s: string, part: string, i: int) {
    0 <= i && i + |part| <= |s| && s[i..i + |part|] == part
  }

  predicate IsRegistryRateLimit(message: string) {
    Contains(Lower(message), "rate limited") || Contains(Lower(message), "(429)")
  }

  datatype Merged = Merged(remote: Option<string>, error: Option<string>)

  function MergeRemoteCheck(previous: Option<string>, fetched: Option<string>, error: Option<string>): Merged {
    if !Known(error) then Merged(fetched, None)
    else if IsRegistryRateLimit(error.value) && Known(previous) then Merged(previous, None)
    else Merged(if previous.Some? then previous else fetched, error)
  }

  function PreviousDigest(read: Option<Row>): Option<string> {
    match read
    case Some(row) => row.remote
    case None => None
  }

  function MergeProbe(read: Option<Row>, remote: Remote): Merged {
    match remote
    case Fetched(digest) => MergeRemoteCheck(PreviousDigest(read), digest, None)
    case FetchFailed(message) => MergeRemoteCheck(PreviousDigest(read), None, Some(message))
  }

  function LocalError(local: Local): Option<string> {
    match local
    case Inspected(_) => None
    case InspectFailed(message) => Some("Local inspect failed: " + message)
  }

  function LocalDigest(local: Local): Option<string> {
    match local
    case Inspected(digest) => digest
    case InspectFailed(_) => None
  }

  function Errors(local: Option<string>, remote: Option<string>): Option<string> {
    if !Known(remote) then local
    else if Known(local) then Some(local.value + "; Remote: " + remote.value)
    else remote
  }

  /** The row a check writes, given the row it read before asking the registry. */
  function CheckedRow(read: Option<Row>, probe: Probe): Row {
    var current := LocalDigest(probe.local);
    var merged := MergeProbe(read, probe.remote);
    Row(probe.name, probe.image, current, merged.remote,
      Known(current) && Known(merged.remote) && current != merged.remote,
      Errors(LocalError(probe.local), merged.error), probe.now)
  }

  function ErrorRow(row: Option<Row>, name: string, image: string, message: string, now: nat): Row {
    match row
    case Some(r) => r.(name := name, image := image, error := Some(message), checkedAt := now)
    case None => Row(name, image, None, None, false, Some(message), now)
  }

  /** A check reports an error exactly when its inspection failed, or its registry call did with a message that is
      no rate limit hiding behind a known digest. */
  lemma ErrorIsShown(read: Option<Row>, probe: Probe)
    ensures CheckedRow(read, probe).error.Some? <==>
      || probe.local.InspectFailed?
      || (probe.remote.FetchFailed? && probe.remote.message != ""
          && !(IsRegistryRateLimit(probe.remote.message) && Known(PreviousDigest(read))))
  {
    hide IsRegistryRateLimit;
  }

  /** An update is offered only between two known, different digests. */
  predicate Sound(row: Row) {
    row.available ==> Known(row.current) && Known(row.remote) && row.current != row.remote
  }

  // ---- Every interleaving of checks, errors and deletions

  function RowOf(rows: Rows, id: string): Option<Row> {
    if id in rows then Some(rows[id]) else None
  }

  datatype Check = Check(id: string, read: Option<Row>)

  /** The table and the checks that wait for their registry. */
  datatype Cache = Cache(rows: Rows, waiting: map<nat, Check>)

  datatype Step =
    | Begin(check: nat, id: string)
    | Settle(check: nat, probe: Probe)
    | PersistError(id: string, name: string, image: string, message: string, now: nat)
    | MarkApplied(id: string, keepError: bool, now: nat)
    | DeleteWhere(ids: set<string>)

  predicate Enabled(c: Cache, s: Step) {
    match s
    case Begin(check, _) => check !in c.waiting
    case Settle(check, _) => check in c.waiting
    case MarkApplied(id, _, _) => id in c.rows
    case _ => true
  }

  function Next(c: Cache, s: Step): Cache
    requires Enabled(c, s)
  {
    match s
    case Begin(check, id) => c.(waiting := c.waiting[check := Check(id, RowOf(c.rows, id))])
    case Settle(check, probe) =>
      var id := c.waiting[check].id;
      Cache(c.rows[id := CheckedRow(c.waiting[check].read, probe)], c.waiting - {check})
    case PersistError(id, name, image, message, now) =>
      c.(rows := c.rows[id := ErrorRow(RowOf(c.rows, id), name, image, message, now)])
    case MarkApplied(id, keepError, now) =>
      var row := c.rows[id];
      c.(rows := c.rows[id := row.(available := false, error := if keepError then row.error else None, checkedAt := now)])
    case DeleteWhere(ids) => c.(rows := c.rows - ids)
  }

  ghost predicate AllSound(rows: Rows) {
    forall id <- rows :: Sound(rows[id])
  }

  ghost predicate Reachable(states: seq<Cache>, steps: seq<Step>) {
    && |states| == |steps| + 1
    && states[0] == Cache(map[], map[])
    && forall i :: 0 <= i < |steps| ==> Enabled(states[i], steps[i]) && states[i + 1] == Next(states[i], steps[i])
  }

  lemma CheckIsSound(read: Option<Row>, probe: Probe)
    ensures Sound(CheckedRow(read, probe))
  {
  }

  lemma {:induction false} UpdatesAreSound(states: seq<Cache>, steps: seq<Step>, i: nat)
    requires Reachable(states, steps) && i < |states|
    ensures AllSound(states[i].rows)
  {
    if i > 0 {
      UpdatesAreSound(states, steps, i - 1);
      if steps[i - 1].Settle? {
        CheckIsSound(states[i - 1].waiting[steps[i - 1].check].read, steps[i - 1].probe);
      }
    }
  }

  /** A failing check writes back the digest it read, unless its failure has no message. */
  lemma FailingCheckKeepsDigest(c: Cache, check: nat, probe: Probe, digest: string)
    requires check in c.waiting && probe.remote.FetchFailed? && digest != ""
    ensures var id := c.waiting[check].id;
      Next(c, Settle(check, probe)).rows[id].remote == Some(digest)
      <==> PreviousDigest(c.waiting[check].read) == Some(digest) && probe.remote.message != ""
  {
  }

  /** Nothing wrote the row between the check's two accesses. */
  ghost predicate Undisturbed(states: seq<Cache>, steps: seq<Step>, i: nat, j: nat, id: string)
    requires |states| == |steps| + 1
  {
    forall k :: i < k <= j < |states| ==> RowOf(states[k].rows, id) == RowOf(states[i].rows, id)
  }

  ghost predicate WaitsFrom(states: seq<Cache>, steps: seq<Step>, i: nat, j: nat, check: nat)
    requires |states| == |steps| + 1
  {
    && i < j < |steps| && steps[i].Begin? && steps[i].check == check
    && forall k :: i < k < j ==> (steps[k].Begin? || steps[k].Settle?) ==> steps[k].check != check
  }

  lemma {:induction false} ReadIsHeld(states: seq<Cache>, steps: seq<Step>, i: nat, j: nat, check: nat)
    requires Reachable(states, steps) && WaitsFrom(states, steps, i, j, check)
    ensures check in states[j].waiting
    ensures states[j].waiting[check] == Check(steps[i].id, RowOf(states[i].rows, steps[i].id))
    decreases j
  {
    if j > i + 1 {
      ReadIsHeld(states, steps, i, j - 1, check);
      assert Enabled(states[j - 1], steps[j - 1]);
    } else {
      assert Enabled(states[i], steps[i]);
    }
  }

  /** In every run: a failing check that nothing disturbs never changes a known remote digest. */
  lemma UndisturbedFailureKeepsDigest(states: seq<Cache>, steps: seq<Step>, i: nat, j: nat, check: nat)
    requires Reachable(states, steps) && WaitsFrom(states, steps, i, j, check)
    requires steps[j].Settle? && steps[j].check == check && steps[j].probe.remote.FetchFailed?
    requires steps[j].probe.remote.message != ""
    requires Undisturbed(states, steps, i, j, steps[i].id)
    ensures var id := steps[i].id;
      id in states[j].rows && Known(states[j].rows[id].remote) ==>
      states[j + 1].rows[id].remote == states[j].rows[id].remote
  {
    ReadIsHeld(states, steps, i, j, check);
    assert states[j + 1] == Next(states[j], steps[j]);
    var id := steps[i].id;
    if id in states[j].rows && Known(states[j].rows[id].remote) {
      assert RowOf(states[j].rows, id) == RowOf(states[i].rows, id);
      FailingCheckKeepsDigest(states[j], check, steps[j].probe, states[j].rows[id].remote.value);
    }
  }

  /** Two overlapping checks: the failing one brings back the digest that the other replaced. */
  lemma OverlapRestoresOldDigest(id: string, stale: string, newer: string)
    returns (states: seq<Cache>, steps: seq<Step>)
    requires stale != "" && newer != stale
    ensures Reachable(states, steps) && |steps| == 6
    ensures steps[5].Settle? && steps[5].probe.remote.FetchFailed? && steps[5].probe.remote.message != ""
    ensures id in states[5].rows && states[5].rows[id].remote == Some(newer)
    ensures id in states[6].rows && states[6].rows[id].remote == Some(stale)
  {
    var first := Settle(1, Probe("c", "i", Inspected(None), Fetched(Some(stale)), 0));
    var newest := Settle(2, Probe("c", "i", Inspected(None), Fetched(Some(newer)), 0));
    var failing := Settle(1, Probe("c", "i", Inspected(None), FetchFailed("timeout"), 0));
    steps := [Begin(1, id), first, Begin(1, id), Begin(2, id), newest, failing];
    var s0 := Cache(map[], map[]);
    var s1 := Next(s0, steps[0]);
    var s2 := Next(s1, first);
    var s3 := Next(s2, steps[2]);
    var s4 := Next(s3, steps[3]);
    var s5 := Next(s4, newest);
    states := [s0, s1, s2, s3, s4, s5, Next(s5, failing)];
    assert s2.rows[id].remote == Some(stale);
    FailingCheckKeepsDigest(s5, 1, failing.probe, stale);
  }

  // ---- Pruning

  function NameKey(name: string): string {
    Lower(if name != "" && name[0] == '/' then name[1..] else name)
  }

  predicate SameName(rows: Rows, a: string, b: string) {
    a in rows && b in rows && NameKey(rows[a].name) == NameKey(rows[b].name)
  }

  /** The database's answer: every id once, the newest check first. */
  ghost predicate NewestFirst(rows: Rows, order: seq<string>) {
    && (forall id :: id in order <==> id in rows)
    && (forall i, j :: 0 <= i < j < |order| ==> order[i] != order[j])
    && forall i, j :: 0 <= i < j < |order| ==> rows[order[i]].checkedAt >= rows[order[j]].checkedAt
  }

  function Live(rows: Rows, ids: seq<string>): Rows {
    map id | id in rows && id in ids :: rows[id]
  }

  ghost predicate OnlyLive(rows: Rows, ids: seq<string>, kept: Rows) {
    forall id <- kept :: id in rows && id in ids && kept[id] == rows[id]
  }

  ghost predicate OnePerName(kept: Rows) {
    forall a, b :: a != b ==> !SameName(kept, a, b)
  }

  ghost predicate HasNewer(rows: Rows, kept: Rows, id: string)
    requires id in rows
  {
    exists k <- kept :: SameName(rows, k, id) && rows[k].checkedAt >= rows[id].checkedAt
  }

  /** Only live rows, unchanged, one per name; and each live row's name keeps one at least as new. */
  ghost predicate Pruned(rows: Rows, ids: seq<string>, kept: Rows) {
    && OnlyLive(rows, ids, kept) && OnePerName(kept)
    && NoNameLost(rows, ids, kept)
  }

  ghost predicate NoNameLost(rows: Rows, ids: seq<string>, kept: Rows) {
    forall id <- rows :: id in ids ==> HasNewer(rows, kept, id)
  }

  lemma KeepsTheNewest(rows: Rows, ids: seq<string>, kept: Rows, id: string, other: string)
    requires Pruned(rows, ids, kept)
    requires id in kept && other in ids && SameName(rows, id, other)
    ensures rows[other].checkedAt <= kept[id].checkedAt
    ensures other in kept ==> other == id
  {
    hide NameKey, NoNameLost;
    var k := NewerRow(rows, ids, kept, other);
    SameInKept(rows, ids, kept, k, id);
    if other in kept {
      SameInKept(rows, ids, kept, other, id);
    }
  }

  lemma NewerRow(rows: Rows, ids: seq<string>, kept: Rows, id: string) returns (k: string)
    requires NoNameLost(rows, ids, kept) && id in rows && id in ids
    ensures k in kept && SameName(rows, k, id) && rows[k].checkedAt >= rows[id].checkedAt
  {
    hide NameKey;
    assert HasNewer(rows, kept, id);
    k :| k in kept && SameName(rows, k, id) && rows[k].checkedAt >= rows[id].checkedAt;
  }

  lemma SameInKept(rows: Rows, ids: seq<string>, kept: Rows, a: string, b: string)
    requires OnlyLive(rows, ids, kept) && OnePerName(kept)
    requires a in kept && b in kept && SameName(rows, a, b)
    ensures a == b
  {
    hide NameKey;
    assert SameName(kept, a, b);
  }

  /** Positions before `k` whose name came up earlier. */
  ghost predicate Repeats(rows: Rows, order: seq<string>, j: int) {
    exists i :: 0 <= i < j < |order| && SameName(rows, order[i], order[j])
  }

  lemma {:induction false} FirstOfName(rows: Rows, order: seq<string>, j: nat) returns (i: nat)
    requires NewestFirst(rows, order) && j < |order|
    ensures i <= j && !Repeats(rows, order, i) && SameName(rows, order[i], order[j])
    ensures rows[order[i]].checkedAt >= rows[order[j]].checkedAt
  {
    hide NameKey;
    i := j;
    if Repeats(rows, order, j) {
      var e :| 0 <= e < j && SameName(rows, order[e], order[j]);
      i := FirstOfName(rows, order, e);
    }
  }

  /** Exactly the ids that repeat an earlier name. */
  ghost predicate AreRepeats(live: Rows, order: seq<string>, duplicates: set<string>, k: nat) {
    && (forall j :: 0 <= j < k <= |order| ==> (order[j] in duplicates <==> Repeats(live, order, j)))
    && forall id <- duplicates :: id in order[..if k <= |order| then k else 0]
  }

  lemma RemovalIsUnique(live: Rows, order: seq<string>, duplicates: set<string>, a: string, b: string)
    requires NewestFirst(live, order) && AreRepeats(live, order, duplicates, |order|)
    requires a in live && b in live && a !in duplicates && b !in duplicates && SameName(live, a, b)
    ensures a == b
  {
    hide NameKey;
    var i :| 0 <= i < |order| && order[i] == a;
    var j :| 0 <= j < |order| && order[j] == b;
    assert SameName(live, order[j], order[i]) && SameName(live, order[i], order[j]);
    assert i < j ==> Repeats(live, order, j);
    assert j < i ==> Repeats(live, order, i);
  }

  lemma RemovalKeepsNewer(live: Rows, order: seq<string>, duplicates: set<string>, id: string)
    requires NewestFirst(live, order) && AreRepeats(live, order, duplicates, |order|)
    requires id in live
    ensures HasNewer(live, live - duplicates, id)
  {
    hide NameKey, Repeats;
    var j :| 0 <= j < |order| && order[j] == id;
    var i := FirstOfName(live, order, j);
    assert order[i] in live - duplicates;
  }

  lemma RemovalPrunes(rows: Rows, ids: seq<string>, order: seq<string>, duplicates: set<string>)
    requires NewestFirst(Live(rows, ids), order)
    requires AreRepeats(Live(rows, ids), order, duplicates, |order|)
    ensures Pruned(rows, ids, Live(rows, ids) - duplicates)
  {
    hide NameKey, AreRepeats, NewestFirst;
    var live := Live(rows, ids);
    var kept := live - duplicates;
    forall a, b | a != b
      ensures !SameName(kept, a, b)
    {
      if SameName(kept, a, b) {
        RemovalIsUnique(live, order, duplicates, a, b);
      }
    }
    forall id | id in rows && id in ids
      ensures HasNewer(rows, kept, id)
    {
      RemovalKeepsNewer(live, order, duplicates, id);
      var k :| k in kept && SameName(live, k, id) && live[k].checkedAt >= live[id].checkedAt;
      assert SameName(rows, k, id);
    }
  }

  ghost predicate Seen(live: Rows, order: seq<string>, k: nat, key: string)
    requires k <= |order| && forall id <- order :: id in live
  {
    exists i :: 0 <= i < k && NameKey(live[order[i]].name) == key
  }

  lemma SeenRepeats(live: Rows, order: seq<string>, k: nat)
    requires k < |order| && forall id <- order :: id in live
    ensures Seen(live, order, k, NameKey(live[order[k]].name)) <==> Repeats(live, order, k)
    ensures forall key :: Seen(live, order, k + 1, key) <==>
      Seen(live, order, k, key) || key == NameKey(live[order[k]].name)
  {
    hide NameKey;
    assert forall i :: 0 <= i < k ==>
      (SameName(live, order[i], order[k]) <==> NameKey(live[order[i]].name) == NameKey(live[order[k]].name));
    assert Seen(live, order, k + 1, NameKey(live[order[k]].name));
  }

  method FindDuplicates(live: Rows, order: seq<string>) returns (duplicates: set<string>)
    requires NewestFirst(live, order)
    ensures AreRepeats(live, order, duplicates, |order|)
  {
    hide NameKey, Seen, Repeats;
    var seenNames: set<string> := {};
    duplicates := {};
    assert forall key :: !Seen(live, order, 0, key) by { NothingSeen(live, order); }
    for k := 0 to |order|
      invariant forall key :: key in seenNames <==> Seen(live, order, k, key)
      invariant AreRepeats(live, order, duplicates, k)
    {
      var key := NameKey(live[order[k]].name);
      SeenRepeats(live, order, k);
      assert order[k] !in duplicates;
      if key in seenNames {
        duplicates := duplicates + {order[k]};
      } else {
        seenNames := seenNames + {key};
      }
    }
  }

  lemma NothingSeen(live: Rows, order: seq<string>)
    requires forall id <- order :: id in live
    ensures forall key :: !Seen(live, order, 0, key)
  {
  }

  lemma RemoveNone(rows: Rows)
    ensures rows - {} == rows
  {
  }

  class Table {
    var rows: Rows

    constructor ()
      ensures rows == map[]
    {
      rows := map[];
    }

    method PruneStaleCache(ids: seq<string>, order: seq<string>)
      requires NewestFirst(Live(rows, ids), order)
      modifies this
      ensures ids == [] ==> rows == old(rows)
      ensures ids != [] ==> Pruned(old(rows), ids, rows)
    {
      if ids == [] {
        return;
      }
      hide Pruned, NewestFirst, AreRepeats, Live;
      rows := Live(rows, ids);
      var duplicateIds := FindDuplicates(rows, order);
      RemovalPrunes(old(rows), ids, order, duplicateIds);
      if duplicateIds != {} {
        rows := rows - duplicateIds;
      } else {
        RemoveNone(rows);
      }
    }
  }
}
