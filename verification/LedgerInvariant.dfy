/**
 * The invariant of the audit ledger, kept by every transaction of every process:
 * collectors, reconcilers, dispatchers, exporters, pruners and probes, committed or rolled back.
 */
module LedgerInvariant {
  import opened Common
  import opened Attribution
  import opened AuditLedger
  import H = Hysteresis

  /** One committed (or rolled back) transaction of some process. */
  datatype Op =
    | Ingest(rows: seq<Record>, units: set<string>, now: Time, grace: Time)
    | Reconcile(receipts: seq<JobReceipt>)
    | ClaimNext(now: Time)
    | SettleClaim(id: Key, reply: Reply)
    | MakeExport(now: Time, limit: int)
    | Receive(bundle: Bundle, receipt: Retention, clock: Time)
    | Remove(bundle: Bundle, now: Time)
    | ObserveProbe(probe: string, policy: H.Policy, sample: H.Sample)
    | Crash

  predicate SoundReceipt(setup: Setup, l: Ledger, b: Bundle, receipt: Retention, clock: Time) {
    b in l.exports && receipt.bundle == b && receipt.sink == setup.sink && Token(receipt.receiptId)
    && LongEnough(setup, l.exports[b].created, receipt.until, clock)
  }

  ghost function AfterIngest(setup: Setup, l: Ledger, rows: seq<Record>, units: set<string>, now: Time,
                             grace: Time): Ledger {
    match IngestBatch(setup, l, rows, units, now, grace)
    case Success(l1) => l1
    case Failure(e) => if e == BatchTooLarge then l else Claimed(l, "service-control")
  }

  ghost function AfterReconcile(l: Ledger, receipts: seq<JobReceipt>): Ledger {
    match ReconcileAll(l, receipts)
    case Success(l1) => l1
    case Failure(_) => Claimed(l, "service-control")
  }

  ghost function NextClaim(setup: Setup, l: Ledger, now: Time): Option<Key>
    requires ValidSetup(setup)
    ensures NextClaim(setup, l, now).Some? ==> NextClaim(setup, l, now).value in EligibleKeys(l, now)
  {
    var due := EligibleKeys(l, now);
    if due == {} then None else Some(Ordered(setup.rank, l.events, due)[0])
  }

  ghost function AfterClaim(setup: Setup, l: Ledger, now: Time): Ledger
    requires ValidSetup(setup)
  {
    var next := NextClaim(setup, l, now);
    if next.None? then l else ClaimRow(l, next.value, now)
  }

  function AfterReceive(setup: Setup, l: Ledger, b: Bundle, receipt: Retention, clock: Time): Ledger {
    if SoundReceipt(setup, l, b, receipt, clock) then Acknowledge(l, b, receipt) else l
  }

  function AfterPrune(setup: Setup, l: Ledger, b: Bundle, now: Time): Ledger {
    match Prune(setup, l, b, now)
    case Success(p) => p.0
    case Failure(_) => l
  }

  function AfterObserve(setup: Setup, l: Ledger, probe: string, policy: H.Policy, s: H.Sample): Ledger {
    match Observe(setup, l, probe, policy, s)
    case Success(l1) => l1
    case Failure(_) => l
  }

  ghost function Apply(setup: Setup, l: Ledger, op: Op): Ledger
    requires ValidSetup(setup)
  {
    match op
    case Ingest(rows, units, now, grace) => AfterIngest(setup, l, rows, units, now, grace)
    case Reconcile(receipts) => AfterReconcile(l, receipts)
    case ClaimNext(now) => AfterClaim(setup, l, now)
    case SettleClaim(id, reply) => SettleRow(l, id, reply)
    case MakeExport(now, limit) => Prepare(setup, l, now, limit).0
    case Receive(b, receipt, clock) => AfterReceive(setup, l, b, receipt, clock)
    case Remove(b, now) => AfterPrune(setup, l, b, now)
    case ObserveProbe(probe, policy, s) => AfterObserve(setup, l, probe, policy, s)
    case Crash => l
  }

  ghost function Run(setup: Setup, l: Ledger, ops: seq<Op>): Ledger
    requires ValidSetup(setup)
    decreases |ops|
  {
    if ops == [] then l else Run(setup, Apply(setup, l, ops[0]), ops[1..])
  }

  // ---------- the invariant ----------

  ghost predicate Keyed(events: map<Key, Row>) {
    forall id <- events :: events[id].id == id && events[id].payload.Id() == id
  }

  /** A row is delivered exactly when it holds a receipt, and the receipt names that row. */
  ghost predicate DeliveriesBound(events: map<Key, Row>) {
    forall id <- events ::
      && (events[id].delivered <==> events[id].receipt.Some?)
      && (events[id].receipt.Some? ==>
         events[id].receipt.value.eventId == id && Token(events[id].receipt.value.receiptId))
  }

  predicate DistinctIds(rows: seq<Row>) {
    forall i, j :: 0 <= i < j < |rows| ==> rows[i].id != rows[j].id
  }

  predicate SoundExport(setup: Setup, b: Bundle, e: Export) {
    && e.created == b.created
    && (e.payload.Some? ==> e.payload.value == b)
    && DistinctIds(b.events) && b.events != []
    && (e.payload.None? ==> e.receipt.Some?)
    && (e.receipt.Some? ==>
          && e.receipt.value.bundle == b && e.receipt.value.sink == setup.sink
          && b.created + setup.retention <= e.receipt.value.until)
  }

  ghost predicate SoundExports(setup: Setup, exports: map<Bundle, Export>) {
    && (forall b <- exports :: SoundExport(setup, b, exports[b]))
    && (forall a <- exports, b <- exports :: exports[a].payload.Some? && exports[b].payload.Some? ==> a == b)
  }

  /** Why a tombstone may stand: its export was acknowledged, and retains the settled row long enough. */
  ghost predicate Justified(setup: Setup, exports: map<Bundle, Export>, id: Key, b: Bundle) {
    && b in exports && exports[b].receipt.Some?
    && exists saved <- b.events ::
         && saved.id == id && Settled(saved)
         && saved.created + setup.retention + setup.retention <= exports[b].receipt.value.until
  }

  ghost predicate AllJustified(setup: Setup, exports: map<Bundle, Export>, archived: map<Key, Bundle>) {
    forall id <- archived :: Justified(setup, exports, id, archived[id])
  }

  function Known(l: Ledger): set<Key> {
    l.events.Keys + l.archived.Keys
  }

  /** The transitions a probe has recorded are exactly its sequence numbers so far. */
  ghost predicate ProbesNumbered(known: set<Key>, monitors: map<string, Tracked>) {
    forall p: string, n: nat ::
      Probe(p, n) in known <==> p in monitors && 1 <= n <= monitors[p].memory.sequence
  }

  ghost predicate Inv(setup: Setup, l: Ledger) {
    && Keyed(l.events)
    && l.events.Keys !! l.archived.Keys
    && SoundExports(setup, l.exports)
    && AllJustified(setup, l.exports, l.archived)
    && ProbesNumbered(Known(l), l.monitors)
    && DeliveriesBound(l.events)
  }

  /** Nothing is forgotten: identities, tombstones, exports and receipts are permanent. */
  ghost predicate Remembers(l: Ledger, l1: Ledger) {
    && Known(l) <= Known(l1)
    && (forall id <- l.archived :: id in l1.archived && l1.archived[id] == l.archived[id])
    && ReceiptsKept(l.exports, l1.exports)
  }

  predicate ReceiptsKept(exports: map<Bundle, Export>, more: map<Bundle, Export>) {
    forall b <- exports :: b in more && (exports[b].receipt.Some? ==> more[b].receipt == exports[b].receipt)
  }

  // ---------- ingest ----------

  function EventKey(row: Record): set<Key> {
    if row.event.Some? then {row.event.value.Id()} else {}
  }

  function EventKeys(rows: seq<Record>): set<Key> {
    set row | row in rows && row.event.Some? :: row.event.value.Id()
  }

  /** A service obligation as it is first recorded. */
  predicate FreshRow(id: Key, r: Row) {
    && r.id == id && r.payload.Service? && r.payload.Id() == id
    && r.attribution.None? && r.attempts == 0 && !r.delivered && r.receipt.None?
  }

  /** What a committed batch did: rows only appear, and every event of the batch is now known. */
  ghost predicate Extends(events: map<Key, Row>, archived: set<Key>, more: map<Key, Row>, rows: seq<Record>) {
    && (forall id <- events :: id in more && more[id] == events[id])
    && (forall id <- more :: id !in events ==> FreshRow(id, more[id]))
    && more.Keys == events.Keys + (EventKeys(rows) - archived)
  }

  lemma EventKeysCons(row: Record, rows: seq<Record>)
    ensures EventKeys([row] + rows) == EventKey(row) + EventKeys(rows)
  {
    assert forall r :: r in [row] + rows <==> r == row || r in rows;
  }

  /** One more row of a batch: it adds at most its own event, fresh. */
  ghost predicate Added(events: map<Key, Row>, archived: set<Key>, more: map<Key, Row>, row: Record) {
    && (forall id <- events :: id in more && more[id] == events[id])
    && (forall id <- more :: id !in events ==> FreshRow(id, more[id]))
    && more.Keys == events.Keys + (EventKey(row) - archived)
  }

  lemma NoneAdded(events: map<Key, Row>, archived: set<Key>, row: Record)
    requires row.event.Some? ==> row.event.value.Id() in events.Keys + archived
    ensures Added(events, archived, events, row)
  {
  }

  lemma OneAdded(events: map<Key, Row>, archived: set<Key>, row: Record, id: Key, r: Row)
    requires row.event.Some? && id == row.event.value.Id() && id !in events && id !in archived && FreshRow(id, r)
    ensures Added(events, archived, events[id := r], row)
  {
    assert EventKey(row) - archived == {id};
  }

  lemma AddEventExtends(capacity: nat, events: map<Key, Row>, archived: set<Key>, row: Record, now: Time, next: Time)
    requires AddEvent(capacity, events, archived, row, now, next).Success?
    ensures Added(events, archived, AddEvent(capacity, events, archived, row, now, next).value, row)
  {
    if row.event.None? || row.event.value.Id() in events || row.event.value.Id() in archived {
      NoneAdded(events, archived, row);
    } else {
      OneAdded(events, archived, row, row.event.value.Id(), Obligation(Service(row.event.value), now, next));
    }
  }

  lemma ExtendsCons(events: map<Key, Row>, archived: set<Key>, more: map<Key, Row>, most: map<Key, Row>,
                    rows: seq<Record>)
    requires rows != [] && Added(events, archived, more, rows[0]) && Extends(more, archived, most, rows[1..])
    ensures Extends(events, archived, most, rows)
  {
    EventKeysCons(rows[0], rows[1..]);
    assert rows == [rows[0]] + rows[1..];
  }

  lemma {:induction false} IngestExtends(capacity: nat, events: map<Key, Row>, archived: set<Key>, rows: seq<Record>,
                                         now: Time, next: Time)
    requires AddEvents(capacity, events, archived, rows, now, next).Success?
    ensures Extends(events, archived, AddEvents(capacity, events, archived, rows, now, next).value, rows)
    decreases |rows|
  {
    if rows == [] {
      assert EventKeys(rows) == {};
    } else {
      var more := AddEvent(capacity, events, archived, rows[0], now, next).value;
      IngestExtends(capacity, more, archived, rows[1..], now, next);
      AddEventExtends(capacity, events, archived, rows[0], now, next);
      ExtendsCons(events, archived, more, AddEvents(capacity, more, archived, rows[1..], now, next).value, rows);
    }
  }

  // ---------- prune ----------

  function Doomed(setup: Setup, l: Ledger, rows: seq<Row>, now: Time): set<Key> {
    set id | id in l.events && l.events[id] in rows && DueForRetention(setup, l.events[id], now)
  }

  function Tombstones(gone: set<Key>, b: Bundle): map<Key, Bundle> {
    map id | id in gone :: b
  }

  /** The ledger after archiving a set of rows under one export. */
  function Archive(l: Ledger, gone: set<Key>, b: Bundle): Ledger {
    l.(events := l.events - gone,
       archived := l.archived + Tombstones(gone, b),
       versions := l.versions - gone)
  }

  lemma ArchiveTwice(l: Ledger, a: set<Key>, c: set<Key>, b: Bundle)
    ensures Archive(Archive(l, a, b), c, b) == Archive(l, a + c, b)
  {
    assert l.events - a - c == l.events - (a + c);
    assert l.versions - a - c == l.versions - (a + c);
    assert l.archived + Tombstones(a, b) + Tombstones(c, b) == l.archived + Tombstones(a + c, b);
  }

  lemma ArchiveOne(l: Ledger, id: Key, b: Bundle)
    ensures Archive(l, {id}, b)
            == l.(events := l.events - {id}, archived := l.archived[id := b], versions := l.versions - {id})
  {
    assert l.archived + Tombstones({id}, b) == l.archived[id := b];
  }

  lemma ArchiveNone(l: Ledger, b: Bundle)
    ensures Archive(l, {}, b) == l
  {
    assert l.events - {} == l.events && l.versions - {} == l.versions;
    assert l.archived + Tombstones({}, b) == l.archived;
  }

  lemma DoomedSplit(setup: Setup, l: Ledger, saved: Row, rows: seq<Row>, now: Time, b: Bundle)
    requires Keyed(l.events) && l.events.Keys !! l.archived.Keys
    ensures Removable(setup, l, saved, now) ==>
              && Doomed(setup, l, [saved] + rows, now)
                 == {saved.id} + Doomed(setup, Archive(l, {saved.id}, b), rows, now)
              && saved.id !in Doomed(setup, Archive(l, {saved.id}, b), rows, now)
    ensures !Removable(setup, l, saved, now) ==>
              Doomed(setup, l, [saved] + rows, now) == Doomed(setup, l, rows, now)
  {
    assert forall r :: r in [saved] + rows <==> r == saved || r in rows;
    var l1 := Archive(l, {saved.id}, b);
    assert forall id :: id in l1.events <==> id in l.events && id != saved.id;
  }

  lemma DoomedGrows(setup: Setup, l: Ledger, l1: Ledger, b: Bundle, rows: seq<Row>, now: Time)
    requires Keyed(l.events) && l.events.Keys !! l.archived.Keys
    requires rows != [] && Removable(setup, l, rows[0], now) && l1 == Archive(l, {rows[0].id}, b)
    ensures Doomed(setup, l, rows, now) == {rows[0].id} + Doomed(setup, l1, rows[1..], now)
    ensures |Doomed(setup, l, rows, now)| == |Doomed(setup, l1, rows[1..], now)| + 1
  {
    assert rows == [rows[0]] + rows[1..];
    DoomedSplit(setup, l, rows[0], rows[1..], now, b);
  }

  lemma PruneUnfold(setup: Setup, l: Ledger, l1: Ledger, b: Bundle, rows: seq<Row>, now: Time, last: Ledger, n: nat)
    requires rows != [] && Removable(setup, l, rows[0], now) && rows[0].id !in l.archived
    requires l1 == l.(events := l.events - {rows[0].id}, archived := l.archived[rows[0].id := b], versions :=
             l.versions - {rows[0].id})
    requires PruneRows(setup, l1, b, rows[1..], now) == Success((last, n))
    ensures PruneRows(setup, l, b, rows, now) == Success((last, n + 1))
  {
  }

  /** The result of the pruning loop: these rows archived, each counted once. */
  predicate Pruned(setup: Setup, l: Ledger, b: Bundle, rows: seq<Row>, now: Time, gone: set<Key>) {
    PruneRows(setup, l, b, rows, now) == Success((Archive(l, gone, b), |gone|))
  }

  lemma PruneOneMore(setup: Setup, l: Ledger, l1: Ledger, b: Bundle, rows: seq<Row>, now: Time, gone: set<Key>,
                     all: set<Key>)
    requires rows != [] && Removable(setup, l, rows[0], now) && rows[0].id !in l.archived
    requires l1 == Archive(l, {rows[0].id}, b) && Pruned(setup, l1, b, rows[1..], now, gone)
    requires all == {rows[0].id} + gone && |all| == |gone| + 1
    ensures Pruned(setup, l, b, rows, now, all)
  {
    ArchiveOne(l, rows[0].id, b);
    ArchiveTwice(l, {rows[0].id}, gone, b);
    PruneUnfold(setup, l, l1, b, rows, now, Archive(l1, gone, b), |gone|);
  }

  /** The pruning loop in closed form; in particular its tombstone insert never conflicts. */
  lemma {:induction false} PruneRowsInBulk(setup: Setup, l: Ledger, b: Bundle, rows: seq<Row>, now: Time)
    requires Keyed(l.events) && l.events.Keys !! l.archived.Keys
    ensures Pruned(setup, l, b, rows, now, Doomed(setup, l, rows, now))
    decreases |rows|
  {
    if rows == [] {
      assert Doomed(setup, l, rows, now) == {};
      ArchiveNone(l, b);
    } else if Removable(setup, l, rows[0], now) {
      var l1 := Archive(l, {rows[0].id}, b);
      PruneRowsInBulk(setup, l1, b, rows[1..], now);
      DoomedGrows(setup, l, l1, b, rows, now);
      PruneOneMore(setup, l, l1, b, rows, now, Doomed(setup, l1, rows[1..], now), Doomed(setup, l, rows, now));
    } else {
      PruneRowsInBulk(setup, l, b, rows[1..], now);
      assert rows == [rows[0]] + rows[1..];
      DoomedSplit(setup, l, rows[0], rows[1..], now, b);
    }
  }

  // ---------- one step ----------

  /** The ledgers a transaction may leave: the invariant holds, nothing is forgotten, only known rows are archived. */
  ghost function Successors(setup: Setup, l: Ledger): iset<Ledger> {
    iset l1 | Inv(setup, l1) && Remembers(l, l1) && l1.archived.Keys <= Known(l)
  }

  ghost predicate Keeps(setup: Setup, l: Ledger, l1: Ledger) {
    Inv(setup, l) ==> l1 in Successors(setup, l)
  }

  predicate SameRest(l: Ledger, l1: Ledger) {
    l1.archived == l.archived && l1.exports == l.exports && l1.monitors == l.monitors
  }

  lemma RowsUpdated(setup: Setup, l: Ledger, l1: Ledger)
    requires SameRest(l, l1) && l1.events.Keys == l.events.Keys
    requires forall id <- l.events ::
             l1.events[id].id == l.events[id].id && l1.events[id].payload == l.events[id].payload
    requires DeliveriesBound(l.events) ==> DeliveriesBound(l1.events)
    ensures Keeps(setup, l, l1)
  {
    assert Known(l1) == Known(l);
  }

  lemma RowUpdated(setup: Setup, l: Ledger, l1: Ledger, id: Key, r: Row)
    requires SameRest(l, l1) && id in l.events && l1.events == l.events[id := r]
    requires r.id == l.events[id].id && r.payload == l.events[id].payload
    requires || (r.delivered == l.events[id].delivered && r.receipt == l.events[id].receipt)
             || (r.delivered && r.receipt.Some? && r.receipt.value.eventId == id && Token(r.receipt.value.receiptId))
    ensures Keeps(setup, l, l1)
  {
    assert l1.events.Keys == l.events.Keys;
    RowsUpdated(setup, l, l1);
  }

  lemma Unchanged(setup: Setup, l: Ledger, l1: Ledger)
    requires SameRest(l, l1) && l1.events == l.events
    ensures Keeps(setup, l, l1)
  {
  }

  lemma AddedRows(events: map<Key, Row>, archived: set<Key>, more: map<Key, Row>, rows: seq<Record>)
    requires Extends(events, archived, more, rows) && Keyed(events) && DeliveriesBound(events)
             && events.Keys !! archived
    ensures Keyed(more) && DeliveriesBound(more) && more.Keys !! archived
  {
  }

  lemma NoProbesAdded(known: set<Key>, rows: seq<Record>, monitors: map<string, Tracked>)
    requires ProbesNumbered(known, monitors)
    ensures ProbesNumbered(known + EventKeys(rows), monitors)
  {
    assert forall p: string, n: nat :: Probe(p, n) !in EventKeys(rows);
  }

  lemma RowsAdded(setup: Setup, l: Ledger, l1: Ledger, rows: seq<Record>)
    requires SameRest(l, l1) && Extends(l.events, l.archived.Keys, l1.events, rows)
    ensures Keeps(setup, l, l1)
  {
    if Inv(setup, l) {
      AddedRows(l.events, l.archived.Keys, l1.events, rows);
      NoProbesAdded(Known(l), rows, l.monitors);
      assert Known(l1) == Known(l) + EventKeys(rows);
    }
  }

  lemma IngestCommits(setup: Setup, l: Ledger, l1: Ledger, rows: seq<Record>, units: set<string>, now: Time,
                      grace: Time)
    requires IngestBatch(setup, l, rows, units, now, grace) == Success(l1)
    ensures SameRest(l, l1)
    ensures AddEvents(setup.capacity, l.events, l.archived.Keys, rows, now, now + grace) == Success(l1.events)
  {
  }

  lemma IngestKeeps(setup: Setup, l: Ledger, rows: seq<Record>, units: set<string>, now: Time, grace: Time)
    ensures Keeps(setup, l, AfterIngest(setup, l, rows, units, now, grace))
  {
    match IngestBatch(setup, l, rows, units, now, grace)
    case Success(l1) =>
      IngestCommits(setup, l, l1, rows, units, now, grace);
      IngestExtends(setup.capacity, l.events, l.archived.Keys, rows, now, now + grace);
      RowsAdded(setup, l, l1, rows);
    case Failure(e) =>
      Unchanged(setup, l, l);
      Unchanged(setup, l, Claimed(l, "service-control"));
  }

  lemma ReconcileCommits(l: Ledger, l1: Ledger, receipts: seq<JobReceipt>)
    requires ReconcileAll(l, receipts) == Success(l1)
    ensures SameRest(l, l1) && l1.events.Keys == l.events.Keys
    ensures forall id <- l.events ::
              l1.events[id] == l.events[id].(attribution := AttributedPayload(l.events[id].payload, receipts))
  {
  }

  lemma ReconcileKeeps(setup: Setup, l: Ledger, receipts: seq<JobReceipt>)
    ensures Keeps(setup, l, AfterReconcile(l, receipts))
  {
    match ReconcileAll(l, receipts)
    case Success(l1) =>
      ReconcileCommits(l, l1, receipts);
      RowsUpdated(setup, l, l1);
    case Failure(_) =>
      Unchanged(setup, l, Claimed(l, "service-control"));
  }

  lemma ClaimKeeps(setup: Setup, l: Ledger, now: Time)
    requires ValidSetup(setup)
    ensures Keeps(setup, l, AfterClaim(setup, l, now))
  {
    var l1 := AfterClaim(setup, l, now);
    match NextClaim(setup, l, now)
    case None => Unchanged(setup, l, l1);
    case Some(id) => RowUpdated(setup, l, l1, id, l1.events[id]);
  }

  /** Recording an outcome changes at most one row, and only as a receipt for itself allows. */
  ghost predicate Settles(l: Ledger, l1: Ledger, id: Key)
    requires id in l.events
  {
    && id in l1.events && l1.events == l.events[id := l1.events[id]] && SameRest(l, l1)
    && RowSettles(id, l.events[id], l1.events[id])
  }

  predicate RowSettles(id: Key, r: Row, r1: Row) {
    && r1.id == r.id && r1.payload == r.payload
    && (|| (r1.delivered == r.delivered && r1.receipt == r.receipt)
        || (r1.delivered && r1.receipt.Some? && r1.receipt.value.eventId == id && Token(r1.receipt.value.receiptId)))
  }

  lemma SettledRow(l: Ledger, l1: Ledger, id: Key, reply: Reply)
    requires id in l.events && l1 == SettleRow(l, id, reply)
    ensures Settles(l, l1, id)
  {
    assert l.events[id := l.events[id]] == l.events;
    assert id in l1.events;
    assert l1.events == l.events[id := l1.events[id]];
  }

  lemma SettleKeeps(setup: Setup, l: Ledger, id: Key, reply: Reply)
    ensures Keeps(setup, l, SettleRow(l, id, reply))
  {
    var l1 := SettleRow(l, id, reply);
    if id !in l.events {
      Unchanged(setup, l, l1);
    } else {
      SettledRow(l, l1, id, reply);
      RowUpdated(setup, l, l1, id, l1.events[id]);
    }
  }

  lemma JustifiedLater(setup: Setup, exports: map<Bundle, Export>, more: map<Bundle, Export>, id: Key, b: Bundle)
    requires Justified(setup, exports, id, b)
    requires b in more && more[b].receipt == exports[b].receipt
    ensures Justified(setup, more, id, b)
  {
  }

  /** A transaction that only touches the export table and keeps every receipt. */
  lemma ExportsChanged(setup: Setup, l: Ledger, l1: Ledger)
    requires Inv(setup, l) && l1.events == l.events && l1.archived == l.archived && l1.monitors == l.monitors
    requires SoundExports(setup, l1.exports)
    requires ReceiptsKept(l.exports, l1.exports)
    ensures l1 in Successors(setup, l)
  {
    assert Known(l1) == Known(l);
    StillJustified(setup, l.exports, l1.exports, l.archived);
  }

  lemma StillJustified(setup: Setup, exports: map<Bundle, Export>, more: map<Bundle, Export>, archived: map<Key,
                       Bundle>)
    requires ReceiptsKept(exports, more) && AllJustified(setup, exports, archived)
    ensures AllJustified(setup, more, archived)
  {
    forall id | id in archived ensures Justified(setup, more, id, archived[id]) {
      JustifiedLater(setup, exports, more, id, archived[id]);
    }
  }

  lemma AscendingKeysDiffer(rank: Key -> nat, table: map<Key, Row>, keys: seq<Key>)
    requires (forall k <- keys :: k in table) && Ascending(rank, table, keys)
    ensures forall i, j :: 0 <= i < j < |keys| ==> keys[i] != keys[j]
  {
  }

  lemma FirstKeysProperties(rank: Key -> nat, table: map<Key, Row>, keys: set<Key>, limit: nat)
    requires Injective(rank) && keys <= table.Keys
    ensures var first := FirstKeys(rank, table, keys, limit);
            && (forall k <- first :: k in keys)
            && Ascending(rank, table, first)
            && |first| == (if |keys| < limit then |keys| else limit)
            && (forall k <- first, x <- keys :: x !in first ==> Before(rank, table, k, x))
  {
    var all, first := Ordered(rank, table, keys), FirstKeys(rank, table, keys, limit);
    forall k, x | k in first && x in keys && x !in first ensures Before(rank, table, k, x) {
      var i :| 0 <= i < |first| && first[i] == k;
      var j :| 0 <= j < |all| && all[j] == x;
    }
  }

  lemma SnapshotRows(setup: Setup, l: Ledger, now: Time, limit: nat)
    requires ValidSetup(setup) && Keyed(l.events)
    ensures var b := PrepareBundle(setup, l, now, limit);
            && DistinctIds(b.events)
            && |b.events| == (if |Backlog(setup, l, now)| < limit then |Backlog(setup, l, now)| else limit)
            && forall r <- b.events :: r.id in Backlog(setup, l, now) && l.events[r.id] == r
  {
    var keys := FirstKeys(setup.rank, l.events, Backlog(setup, l, now), limit);
    FirstKeysProperties(setup.rank, l.events, Backlog(setup, l, now), limit);
    AscendingKeysDiffer(setup.rank, l.events, keys);
    var rows := RowsOf(l.events, keys);
    assert forall i | 0 <= i < |rows| :: rows[i].id == keys[i];
  }

  lemma ExportAdded(setup: Setup, exports: map<Bundle, Export>, b: Bundle)
    requires SoundExports(setup, exports) && DistinctIds(b.events) && b.events != []
    requires forall a <- exports :: exports[a].payload.None?
    ensures SoundExports(setup, exports[b := Export(Some(b), None, b.created)])
  {
  }

  lemma PrepareCommits(setup: Setup, l: Ledger, now: Time, limit: int)
    requires ValidSetup(setup)
    ensures var (l1, r) := Prepare(setup, l, now, limit);
            l1 == l ||
            (1 <= limit && OpenExports(l) == {} && Backlog(setup, l, now) != {}
             && var b := PrepareBundle(setup, l, now, limit);
                b !in l.exports && l1 == l.(exports := l.exports[b := Export(Some(b), None, b.created)]))
  {
  }

  lemma ExportKeeps(setup: Setup, l: Ledger, now: Time, limit: int)
    requires ValidSetup(setup)
    ensures Keeps(setup, l, Prepare(setup, l, now, limit).0)
  {
    var l1 := Prepare(setup, l, now, limit).0;
    PrepareCommits(setup, l, now, limit);
    if l1 == l {
      Unchanged(setup, l, l1);
    } else if Inv(setup, l) {
      SnapshotRows(setup, l, now, limit);
      NoneOpen(l);
      ExportAdded(setup, l.exports, PrepareBundle(setup, l, now, limit));
      ExportsChanged(setup, l, l1);
    }
  }

  lemma NoneOpen(l: Ledger)
    requires OpenExports(l) == {}
    ensures forall a <- l.exports :: l.exports[a].payload.None?
  {
    forall a | a in l.exports ensures l.exports[a].payload.None? {
      assert a !in OpenExports(l);
    }
  }

  lemma ReceiptStored(setup: Setup, exports: map<Bundle, Export>, b: Bundle, receipt: Retention)
    requires SoundExports(setup, exports) && b in exports
    requires receipt.bundle == b && receipt.sink == setup.sink && b.created + setup.retention <= receipt.until
    ensures SoundExports(setup, exports[b := exports[b].(receipt := Some(receipt))])
  {
  }

  lemma ReceiptKept(setup: Setup, l: Ledger, b: Bundle, receipt: Retention, clock: Time, l1: Ledger)
    requires Inv(setup, l) && SoundReceipt(setup, l, b, receipt, clock) && l1 == Acknowledge(l, b, receipt)
    ensures SoundExports(setup, l1.exports)
    ensures ReceiptsKept(l.exports, l1.exports)
  {
    if l.exports[b].receipt.None? {
      ReceiptStored(setup, l.exports, b, receipt);
    }
  }

  lemma ReceiveKeeps(setup: Setup, l: Ledger, b: Bundle, receipt: Retention, clock: Time)
    ensures Keeps(setup, l, AfterReceive(setup, l, b, receipt, clock))
  {
    var l1 := AfterReceive(setup, l, b, receipt, clock);
    if !SoundReceipt(setup, l, b, receipt, clock) {
      Unchanged(setup, l, l1);
    } else if Inv(setup, l) {
      ReceiptKept(setup, l, b, receipt, clock, l1);
      ExportsChanged(setup, l, l1);
    }
  }

  /** The exact effect of a successful prune: one closed form instead of a loop. */
  lemma PruneCommits(setup: Setup, l: Ledger, b: Bundle, now: Time)
    requires Keyed(l.events) && l.events.Keys !! l.archived.Keys && Prune(setup, l, b, now).Success?
    ensures var (l1, removed) := Prune(setup, l, b, now).value;
            && b in l.exports && l.exports[b].receipt.Some?
            && now + setup.retention <= l.exports[b].receipt.value.until && l.exports[b].created <= now
            && var gone := if l.exports[b].payload.None? then {} else Doomed(setup, l, b.events, now);
               removed == |gone|
               && l1 == Archive(l, gone, b).(exports := if l.exports[b].payload.None? then l.exports
                                                        else l.exports[b := l.exports[b].(payload := None)])
  {
    if l.exports[b].payload.None? {
      ArchiveNone(l, b);
    } else {
      PruneRowsInBulk(setup, l, b, b.events, now);
    }
  }

  lemma PayloadDropped(setup: Setup, exports: map<Bundle, Export>, b: Bundle)
    requires SoundExports(setup, exports) && b in exports && exports[b].receipt.Some?
    ensures SoundExports(setup, exports[b := exports[b].(payload := None)])
    ensures ReceiptsKept(exports, exports[b := exports[b].(payload := None)])
  {
  }

  lemma DoomedJustified(setup: Setup, l: Ledger, b: Bundle, now: Time, id: Key)
    requires Keyed(l.events) && b in l.exports && l.exports[b].receipt.Some?
    requires now + setup.retention <= l.exports[b].receipt.value.until
    requires id in Doomed(setup, l, b.events, now)
    ensures Justified(setup, l.exports, id, b)
  {
    var saved := l.events[id];
    assert saved in b.events;
  }

  /** Some rows have become tombstones, and nothing else changed. */
  ghost predicate Archived(setup: Setup, l: Ledger, l1: Ledger, gone: set<Key>) {
    && l1.exports == l.exports && l1.monitors == l.monitors
    && l1.events.Keys == l.events.Keys - gone && (forall id <- l1.events :: l1.events[id] == l.events[id])
    && l1.archived.Keys == l.archived.Keys + gone && (forall id <- l.archived :: l1.archived[id] == l.archived[id])
    && (forall id <- gone :: Justified(setup, l.exports, id, l1.archived[id]))
  }

  lemma ArchiveArchives(setup: Setup, l: Ledger, l1: Ledger, gone: set<Key>, b: Bundle)
    requires l.events.Keys !! l.archived.Keys && gone <= l.events.Keys && l1 == Archive(l, gone, b)
    requires forall id <- gone :: Justified(setup, l.exports, id, b)
    ensures Archived(setup, l, l1, gone)
  {
    assert l1.archived == l.archived + Tombstones(gone, b);
  }

  lemma ArchivedKnown(setup: Setup, l: Ledger, l1: Ledger, gone: set<Key>)
    requires Archived(setup, l, l1, gone) && gone <= l.events.Keys
    ensures Known(l1) == Known(l)
  {
  }

  lemma ArchivedJustified(setup: Setup, l: Ledger, l1: Ledger, gone: set<Key>)
    requires AllJustified(setup, l.exports, l.archived) && Archived(setup, l, l1, gone)
    ensures AllJustified(setup, l1.exports, l1.archived)
  {
    forall id | id in l1.archived ensures Justified(setup, l1.exports, id, l1.archived[id]) {
      if id !in gone {
        assert Justified(setup, l.exports, id, l.archived[id]);
      }
    }
  }

  lemma ArchivedRows(setup: Setup, l: Ledger, l1: Ledger, gone: set<Key>)
    requires Archived(setup, l, l1, gone) && Keyed(l.events) && DeliveriesBound(l.events)
    ensures Keyed(l1.events) && DeliveriesBound(l1.events)
  {
  }

  lemma ArchivedKeeps(setup: Setup, l: Ledger, l1: Ledger, gone: set<Key>)
    requires Inv(setup, l) && gone <= l.events.Keys && Archived(setup, l, l1, gone)
    ensures l1 in Successors(setup, l)
  {
    ArchivedKnown(setup, l, l1, gone);
    ArchivedJustified(setup, l, l1, gone);
    ArchivedRows(setup, l, l1, gone);
  }

  lemma ArchiveKeeps(setup: Setup, l: Ledger, l1: Ledger, gone: set<Key>, b: Bundle)
    requires Inv(setup, l) && gone <= l.events.Keys && l1 == Archive(l, gone, b)
    requires forall id <- gone :: Justified(setup, l.exports, id, b)
    ensures l1 in Successors(setup, l)
  {
    ArchiveArchives(setup, l, l1, gone, b);
    ArchivedKeeps(setup, l, l1, gone);
  }

  lemma RemembersTransitive(a: Ledger, b: Ledger, c: Ledger)
    requires Remembers(a, b) && Remembers(b, c)
    ensures Remembers(a, c)
  {
  }

  /** A change of exports after a transaction. */
  lemma ThenExportsChanged(setup: Setup, l: Ledger, mid: Ledger, l1: Ledger)
    requires mid in Successors(setup, l)
    requires l1.events == mid.events && l1.archived == mid.archived && l1.monitors == mid.monitors
    requires SoundExports(setup, l1.exports)
    requires ReceiptsKept(mid.exports, l1.exports)
    ensures l1 in Successors(setup, l)
  {
    ExportsChanged(setup, mid, l1);
    RemembersTransitive(l, mid, l1);
  }

  lemma DoomedAreJustified(setup: Setup, l: Ledger, b: Bundle, now: Time)
    requires Inv(setup, l) && b in l.exports && l.exports[b].receipt.Some?
    requires now + setup.retention <= l.exports[b].receipt.value.until
    ensures forall id <- Doomed(setup, l, b.events, now) :: Justified(setup, l.exports, id, b)
  {
    forall id | id in Doomed(setup, l, b.events, now) ensures Justified(setup, l.exports, id, b) {
      DoomedJustified(setup, l, b, now, id);
    }
  }

  lemma PruneKeeps(setup: Setup, l: Ledger, b: Bundle, now: Time, l1: Ledger, removed: nat)
    requires Inv(setup, l) && Prune(setup, l, b, now) == Success((l1, removed))
    ensures l1 in Successors(setup, l)
  {
    PruneCommits(setup, l, b, now);
    var gone := if l.exports[b].payload.None? then {} else Doomed(setup, l, b.events, now);
    var mid := Archive(l, gone, b);
    DoomedAreJustified(setup, l, b, now);
    ArchiveKeeps(setup, l, mid, gone, b);
    PayloadDropped(setup, l.exports, b);
    ThenExportsChanged(setup, l, mid, l1);
  }

  lemma RemoveKeeps(setup: Setup, l: Ledger, b: Bundle, now: Time)
    ensures Keeps(setup, l, AfterPrune(setup, l, b, now))
  {
    if Inv(setup, l) {
      match Prune(setup, l, b, now)
      case Failure(_) => Unchanged(setup, l, l);
      case Success(p) => PruneKeeps(setup, l, b, now, p.0, p.1);
    }
  }

  lemma AdvanceNumbers(policy: H.Policy, m: H.Memory, last: Option<Time>, s: H.Sample)
    ensures var (m1, e) := H.Advance(policy, m, last, s);
            && m1.sequence == m.sequence + (if e.Some? then 1 else 0)
            && (e.Some? ==> e.value.sequence == m1.sequence)
  {
  }

  lemma ProbeFresh(l: Ledger, probe: string)
    requires ProbesNumbered(Known(l), l.monitors)
    ensures Probe(probe, MemoryOf(l, probe).sequence + 1) !in Known(l)
  {
  }

  lemma RowInserted(events: map<Key, Row>, row: Row)
    requires Keyed(events) && DeliveriesBound(events)
    requires row.payload.Id() == row.id && !row.delivered && row.receipt.None?
    ensures Keyed(events[row.id := row]) && DeliveriesBound(events[row.id := row])
  {
  }

  lemma NumberTaken(known: set<Key>, monitors: map<string, Tracked>, probe: string, n: nat, t: Tracked)
    requires ProbesNumbered(known, monitors) && t.memory.sequence == n + 1
    requires n == if probe in monitors then monitors[probe].memory.sequence else 0
    ensures ProbesNumbered(known + {Probe(probe, n + 1)}, monitors[probe := t])
  {
  }

  lemma InsertedKnown(l: Ledger, l1: Ledger, row: Row)
    requires l1.archived == l.archived && l1.events == l.events[row.id := row]
    ensures Known(l1) == Known(l) + {row.id}
  {
  }

  lemma TransitionAdded(setup: Setup, l: Ledger, l1: Ledger, probe: string, row: Row, t: Tracked)
    requires Inv(setup, l) && t.memory.sequence == MemoryOf(l, probe).sequence + 1
    requires row.id == Probe(probe, t.memory.sequence) && row.payload.Id() == row.id && !row.delivered
             && row.receipt.None?
    requires l1 == l.(monitors := l.monitors[probe := t], events := l.events[row.id := row])
    ensures l1 in Successors(setup, l)
  {
    ProbeFresh(l, probe);
    InsertedKnown(l, l1, row);
    RowInserted(l.events, row);
    NumberTaken(Known(l), l.monitors, probe, MemoryOf(l, probe).sequence, t);
    assert Known(l) <= Known(l1);
  }

  lemma SampleTracked(setup: Setup, l: Ledger, l1: Ledger, probe: string, t: Tracked)
    requires Inv(setup, l) && t.memory.sequence == MemoryOf(l, probe).sequence
    requires l1 == l.(monitors := l.monitors[probe := t])
    ensures l1 in Successors(setup, l)
  {
    assert Known(l1) == Known(l);
  }

  lemma ObserveCommits(setup: Setup, l: Ledger, l1: Ledger, probe: string, policy: H.Policy, s: H.Sample)
    requires Observe(setup, l, probe, policy, s) == Success(l1)
    ensures var (memory, emitted) := H.Advance(policy, MemoryOf(l, probe), LastSampleOf(l, probe), s);
            var tracked := l.(monitors := l.monitors[probe := Tracked(memory, s.at)]);
            l1 == match emitted
                  case None => tracked
                  case Some(e) => tracked.(events := l.events[TransitionRow(probe, e).id := TransitionRow(probe, e)])
  {
  }

  lemma ObserveKeeps(setup: Setup, l: Ledger, probe: string, policy: H.Policy, s: H.Sample)
    ensures Keeps(setup, l, AfterObserve(setup, l, probe, policy, s))
  {
    if Inv(setup, l) {
      match Observe(setup, l, probe, policy, s)
      case Failure(_) =>
        Unchanged(setup, l, l);
      case Success(l1) =>
        var (memory, emitted) := H.Advance(policy, MemoryOf(l, probe), LastSampleOf(l, probe), s);
        AdvanceNumbers(policy, MemoryOf(l, probe), LastSampleOf(l, probe), s);
        ObserveCommits(setup, l, l1, probe, policy, s);
        if emitted.Some? {
          TransitionAdded(setup, l, l1, probe, TransitionRow(probe, emitted.value), Tracked(memory, s.at));
        } else {
          SampleTracked(setup, l, l1, probe, Tracked(memory, s.at));
        }
    }
  }

  lemma StepKeeps(setup: Setup, l: Ledger, op: Op)
    requires ValidSetup(setup)
    ensures Keeps(setup, l, Apply(setup, l, op))
  {
    match op
    case Ingest(rows, units, now, grace) => IngestKeeps(setup, l, rows, units, now, grace);
    case Reconcile(receipts) => ReconcileKeeps(setup, l, receipts);
    case ClaimNext(now) => ClaimKeeps(setup, l, now);
    case SettleClaim(id, reply) => SettleKeeps(setup, l, id, reply);
    case MakeExport(now, limit) => ExportKeeps(setup, l, now, limit);
    case Receive(b, receipt, clock) => ReceiveKeeps(setup, l, b, receipt, clock);
    case Remove(b, now) => RemoveKeeps(setup, l, b, now);
    case ObserveProbe(probe, policy, s) => ObserveKeeps(setup, l, probe, policy, s);
    case Crash => Unchanged(setup, l, l);
  }
}
