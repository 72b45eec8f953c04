/**
 * The audit ledger as a value (service_audit.py, evidence_archive.py, reachability.py).
 *
 * The SQLite tables are maps and each committed transaction is one function from the
 * ledger before it to the ledger after it. A transaction that raises is a Failure, and
 * its caller keeps the ledger it started from.
 */
module AuditLedger {
  import opened Common
  import opened Attribution
  import H = Hysteresis

  datatype Delivery = Delivery(eventId: Key, receiptId: string)

  datatype Row = Row(
    id: Key, payload: Payload, attribution: Option<Identity>, created: Time, nextAttempt: Time,
    attempts: nat, delivered: bool, receipt: Option<Delivery>, lastError: Option<string>)

  /**
   * An export bundle. Its digest is treated as injective, so the bundle identity that
   * the tables store is the bundle itself.
   */
  datatype Bundle = Bundle(
    sink: string, created: Time, kind: Option<string>, units: Option<set<string>>, cursor: Option<string>,
    events: seq<Row>)

  /** The sink's acknowledgement, as far as it is stored. */
  datatype Retention = Retention(bundle: Bundle, sink: string, receiptId: string, until: Time)

  datatype Export = Export(payload: Option<Bundle>, receipt: Option<Retention>, created: Time)

  datatype Tracked = Tracked(memory: H.Memory, lastSample: Time)

  datatype Ledger = Ledger(
    kind: Option<string>, units: Option<set<string>>, cursor: Option<string>,
    events: map<Key, Row>, archived: map<Key, Bundle>,
    exports: map<Bundle, Export>, versions: map<Key, Row>,
    monitors: map<string, Tracked>)

  const EMPTY := Ledger(None, None, None, map[], map[], map[], map[], map[])

  /** What a deployment fixes: capacity, digest order, and the archive policy. */
  datatype Setup = Setup(capacity: nat, rank: Key -> nat, sink: string, retention: Time)

  ghost predicate ValidSetup(setup: Setup) {
    Injective(setup.rank) && Token(setup.sink) && setup.retention >= 86400.0
  }

  datatype Error =
    | BatchTooLarge | KindMismatch | ScopeChanged | InvalidCursor | CapacityReached
    | BadTime | BadLimit | DuplicateExport | UnknownExport | MissingPayload | BytesChanged
    | BadReceipt | ShortHorizon | NotAcknowledged | ClockBackwards | DuplicateTombstone
    | InvalidObservation | StaleSample

  // ---------- ORDER BY created, id ----------

  predicate Before(rank: Key -> nat, table: map<Key, Row>, a: Key, b: Key)
    requires a in table && b in table
  {
    table[a].created < table[b].created || (table[a].created == table[b].created && rank(a) < rank(b))
  }

  ghost predicate Least(rank: Key -> nat, table: map<Key, Row>, keys: set<Key>, m: Key)
    requires keys <= table.Keys
  {
    m in keys && forall k <- keys :: k != m ==> Before(rank, table, m, k)
  }

  ghost predicate Ascending(rank: Key -> nat, table: map<Key, Row>, keys: seq<Key>)
    requires forall k <- keys :: k in table
  {
    forall i, j :: 0 <= i < j < |keys| ==> Before(rank, table, keys[i], keys[j])
  }

  /** Comparing one more row against the least so far. */
  lemma LeastExtends(rank: Key -> nat, table: map<Key, Row>, seen: set<Key>, m: Key, k: Key)
    requires Injective(rank) && seen <= table.Keys && k in table && k !in seen && Least(rank, table, seen, m)
    ensures Least(rank, table, seen + {k}, if Before(rank, table, k, m) then k else m)
  {
    if Before(rank, table, k, m) {
      forall x | x in seen + {k} && x != k ensures Before(rank, table, k, x) {
        if x != m { assert Before(rank, table, m, x); }
      }
    }
  }

  lemma LeastExists(rank: Key -> nat, table: map<Key, Row>, keys: set<Key>)
    requires Injective(rank) && keys <= table.Keys && keys != {}
    ensures exists m :: Least(rank, table, keys, m)
  {
    var k :| k in keys;
    var rest := keys - {k};
    if rest == {} {
      assert keys == {k};
      assert Least(rank, table, keys, k);
    } else {
      LeastExists(rank, table, rest);
      var m :| Least(rank, table, rest, m);
      LeastExtends(rank, table, rest, m, k);
      assert keys == rest + {k};
    }
  }

  /** A set of rows in the order of SELECT ... ORDER BY created, id. */
  ghost function Ordered(rank: Key -> nat, table: map<Key, Row>, keys: set<Key>): (r: seq<Key>)
    requires Injective(rank) && keys <= table.Keys
    ensures forall k :: k in r <==> k in keys
    ensures |r| == |keys| && Ascending(rank, table, r)
    decreases |keys|
  {
    if keys == {} then []
    else
      LeastExists(rank, table, keys);
      var m :| Least(rank, table, keys, m);
      [m] + Ordered(rank, table, keys - {m})
  }

  ghost function FirstKeys(rank: Key -> nat, table: map<Key, Row>, keys: set<Key>, limit: nat): seq<Key>
    requires Injective(rank) && keys <= table.Keys
  {
    var all := Ordered(rank, table, keys);
    if |all| <= limit then all else all[..limit]
  }

  function RowsOf(table: map<Key, Row>, keys: seq<Key>): seq<Row>
    requires forall k <- keys :: k in table
  {
    seq(|keys|, i requires 0 <= i < |keys| => table[keys[i]])
  }

  // ---------- ingest ----------

  function ClaimKind(l: Ledger, kind: string): Result<Ledger, Error> {
    if l.kind.None? then Success(l.(kind := Some(kind)))
    else if l.kind.value == kind then Success(l)
    else Failure(KindMismatch)
  }

  /** A claim commits on its own: it survives the failure of the transaction that follows it. */
  function Claimed(l: Ledger, kind: string): Ledger {
    if l.kind.None? then l.(kind := Some(kind)) else l
  }

  function Obligation(payload: Payload, now: Time, next: Time): Row {
    Row(payload.Id(), payload, None, now, next, 0, false, None, None)
  }

  /** The events table after one journal row; a known identity is not recorded again. */
  function AddEvent(capacity: nat, events: map<Key, Row>, archived: set<Key>, row: Record, now: Time,
                    next: Time): Result<map<Key, Row>, Error> {
    if row.cursor.None? then Failure(InvalidCursor)
    else if row.event.None? || row.event.value.Id() in events || row.event.value.Id() in archived then Success(events)
    else if |events| >= capacity then Failure(CapacityReached)
    else Success(events[row.event.value.Id() := Obligation(Service(row.event.value), now, next)])
  }

  function AddEvents(capacity: nat, events: map<Key, Row>, archived: set<Key>, rows: seq<Record>, now: Time,
                     next: Time): Result<map<Key, Row>, Error>
    decreases |rows|
  {
    if rows == [] then Success(events)
    else match AddEvent(capacity, events, archived, rows[0], now, next)
      case Failure(e) => Failure(e)
      case Success(more) => AddEvents(capacity, more, archived, rows[1..], now, next)
  }

  function CursorAfter(cursor: Option<string>, rows: seq<Record>): Option<string> {
    if rows == [] then cursor else rows[|rows| - 1].cursor
  }

  function IngestBatch(setup: Setup, l: Ledger, rows: seq<Record>, units: set<string>, now: Time,
                       grace: Time): Result<Ledger, Error> {
    if |rows| > 2000 then Failure(BatchTooLarge)
    else match ClaimKind(l, "service-control")
      case Failure(e) => Failure(e)
      case Success(l1) =>
        if l1.units.Some? && l1.units.value != units then Failure(ScopeChanged)
        else match AddEvents(setup.capacity, l1.events, l1.archived.Keys, rows, now, now + grace)
          case Failure(e) => Failure(e)
          case Success(events) =>
            Success(l1.(units := Some(units), events := events, cursor := CursorAfter(l1.cursor, rows)))
  }

  // ---------- reconcile ----------

  /** A reachability transition has no job, so no receipt explains it. */
  ghost function AttributedPayload(payload: Payload, receipts: seq<JobReceipt>): Option<Identity> {
    if payload.Service? then Attributed(payload.event, receipts) else None
  }

  ghost function ReconcileAll(l: Ledger, receipts: seq<JobReceipt>): Result<Ledger, Error> {
    match ClaimKind(l, "service-control")
    case Failure(e) => Failure(e)
    case Success(l1) =>
      if |receipts| > 10000 then Failure(BatchTooLarge)
      else Success(l1.(events := map id | id in l1.events ::
                         l1.events[id].(attribution := AttributedPayload(l1.events[id].payload, receipts))))
  }

  // ---------- dispatch ----------

  function Power2(n: nat): nat {
    if n == 0 then 1 else 2 * Power2(n - 1)
  }

  function Delay(attempts: nat): nat {
    var d := 15 * Power2(if attempts < 5 then attempts else 5);
    if d < 300 then d else 300
  }

  lemma DelayBounds(k: nat)
    requires k >= 1
    ensures 30 <= Delay(k) <= 300 && Delay(k) <= Delay(k + 1)
  {
    assert Power2(1) == 2;
    assert Power2(2) == 4;
    assert Power2(3) == 8;
    assert Power2(4) == 16;
    assert Power2(5) == 32;
  }

  predicate Eligible(r: Row, now: Time) {
    !r.delivered && r.attribution.None? && r.nextAttempt <= now
  }

  function EligibleKeys(l: Ledger, now: Time): set<Key> {
    set id | id in l.events && Eligible(l.events[id], now)
  }

  /** The first transaction of an attempt: count it and move the retry time before any I/O. */
  function ClaimRow(l: Ledger, id: Key, now: Time): Ledger
    requires id in l.events
  {
    var r := l.events[id];
    l.(events := l.events[id := r.(
      attempts := r.attempts + 1,
      nextAttempt := now + Delay(r.attempts + 1) as real,
      lastError := Some("delivery_unconfirmed"))])
  }

  /** What a sender did: raised, or returned an object with these fields. */
  datatype Reply = Raised | Returned(eventId: Option<Key>, state: Field, receiptId: Field)

  predicate Confirms(reply: Reply, id: Key) {
    reply.Returned? && reply.eventId == Some(id) && reply.state == Text("delivered") && TokenField(reply.receiptId)
  }

  /** The second transaction: only an exact event-bound receipt completes the obligation. */
  function SettleRow(l: Ledger, id: Key, reply: Reply): Ledger {
    if id !in l.events then l
    else
      var r := l.events[id];
      if Confirms(reply, id) then
        l.(events :=
            l.events[id := r.(delivered := true, receipt := Some(Delivery(id, reply.receiptId.s)), lastError := None)])
      else if r.delivered then l
      else l.(events := l.events[id := r.(lastError := Some(
        if reply.Raised? then "transport_unconfirmed" else "receipt_missing_or_mismatched"))])
  }

  // ---------- prepare ----------

  predicate Settled(r: Row) {
    r.delivered || r.attribution.Some?
  }

  predicate DueForRetention(setup: Setup, r: Row, now: Time) {
    Settled(r) && r.created <= now - setup.retention
  }

  predicate NeedsExport(setup: Setup, l: Ledger, id: Key, now: Time)
    requires id in l.events
  {
    !(id in l.versions && l.versions[id] == l.events[id]) || DueForRetention(setup, l.events[id], now)
  }

  /** The rows a drain still has to export. */
  function Backlog(setup: Setup, l: Ledger, now: Time): set<Key> {
    set id | id in l.events && NeedsExport(setup, l, id, now)
  }

  function Snapshot(setup: Setup, l: Ledger, now: Time, rows: seq<Row>): Bundle {
    Bundle(setup.sink, now, l.kind, l.units, l.cursor, rows)
  }

  function OpenExports(l: Ledger): set<Bundle> {
    set b | b in l.exports && l.exports[b].payload.Some?
  }

  function StoreExport(l: Ledger, b: Bundle): Result<Ledger, Error> {
    if b in l.exports then Failure(DuplicateExport)
    else Success(l.(exports := l.exports[b := Export(Some(b), None, b.created)]))
  }

  ghost function PrepareBundle(setup: Setup, l: Ledger, now: Time, limit: nat): Bundle
    requires ValidSetup(setup)
  {
    Snapshot(setup, l, now, RowsOf(l.events, FirstKeys(setup.rank, l.events, Backlog(setup, l, now), limit)))
  }

  /** `prepare`: an open export is handed out again; otherwise the oldest backlog rows are snapshot. */
  ghost function Prepare(setup: Setup, l: Ledger, now: Time, limit: int): (Ledger, Result<Option<Bundle>, Error>)
    requires ValidSetup(setup)
  {
    if now < 0.0 then (l, Failure(BadTime))
    else if !(1 <= limit <= 1000) then (l, Failure(BadLimit))
    else if OpenExports(l) != {} then
      var b :| b in OpenExports(l);
      (l, Success(Some(b)))
    else if Backlog(setup, l, now) == {} then (l, Success(None))
    else
      var b := PrepareBundle(setup, l, now, limit);
      match StoreExport(l, b)
      case Failure(e) => (l, Failure(e))
      case Success(l1) => (l1, Success(Some(b)))
  }

  // ---------- deliver ----------

  /** What a sink returned. */
  datatype SinkReply = SinkReply(
    bundle: Option<Bundle>, sink: Field, state: Field, immutable: bool, receiptId: Field, until: Option<Time>)

  predicate Acceptable(setup: Setup, b: Bundle, reply: SinkReply) {
    && reply.bundle == Some(b) && reply.sink == Text(setup.sink) && reply.state == Text("retained")
    && reply.immutable && TokenField(reply.receiptId)
  }

  function SaveVersions(versions: map<Key, Row>, rows: seq<Row>): map<Key, Row>
    decreases |rows|
  {
    if rows == [] then versions else SaveVersions(versions[rows[0].id := rows[0]], rows[1..])
  }

  /** The acknowledgement transaction: keep the first receipt, record the exported versions. */
  function Acknowledge(l: Ledger, b: Bundle, receipt: Retention): Ledger
    requires b in l.exports
  {
    var e := l.exports[b];
    l.(exports := if e.receipt.None? then l.exports[b := e.(receipt := Some(receipt))] else l.exports,
       versions := SaveVersions(l.versions, b.events))
  }

  predicate LongEnough(setup: Setup, created: Time, until: Time, clock: Time) {
    created <= clock && clock + setup.retention <= until
  }

  function Deliver(setup: Setup, l: Ledger, b: Bundle, reply: SinkReply,
                   clock: Time): (Ledger, Result<Retention, Error>) {
    if b !in l.exports then (l, Failure(UnknownExport))
    else
      var e := l.exports[b];
      if e.receipt.Some? then
        if clock < 0.0 then (l, Failure(BadTime))
        else if !LongEnough(setup, e.created, e.receipt.value.until, clock) then (l, Failure(ShortHorizon))
        else (l, Success(e.receipt.value))
      else if e.payload.None? then (l, Failure(MissingPayload))
      else if e.payload.value != b then (l, Failure(BytesChanged))
      else if !Acceptable(setup, b, reply) then (l, Failure(BadReceipt))
      else if reply.until.None? || reply.until.value < 0.0 || clock < 0.0 then (l, Failure(BadTime))
      else if !LongEnough(setup, e.created, reply.until.value, clock) then (l, Failure(ShortHorizon))
      else
        var receipt := Retention(b, setup.sink, reply.receiptId.s, reply.until.value);
        (Acknowledge(l, b, receipt), Success(receipt))
  }

  // ---------- prune ----------

  predicate Removable(setup: Setup, l: Ledger, saved: Row, now: Time) {
    saved.id in l.events && l.events[saved.id] == saved && DueForRetention(setup, saved, now)
  }

  function PruneRows(setup: Setup, l: Ledger, b: Bundle, rows: seq<Row>, now: Time): Result<(Ledger, nat), Error>
    decreases |rows|
  {
    if rows == [] then Success((l, 0))
    else
      var saved := rows[0];
      if !Removable(setup, l, saved, now) then PruneRows(setup, l, b, rows[1..], now)
      else if saved.id in l.archived then Failure(DuplicateTombstone)
      else
        var l1 := l.(events := l.events - {saved.id}, archived := l.archived[saved.id := b],
                     versions := l.versions - {saved.id});
        match PruneRows(setup, l1, b, rows[1..], now)
        case Failure(e) => Failure(e)
        case Success(p) => Success((p.0, p.1 + 1))
  }

  function Prune(setup: Setup, l: Ledger, b: Bundle, now: Time): Result<(Ledger, nat), Error> {
    if now < 0.0 then Failure(BadTime)
    else if b !in l.exports || l.exports[b].receipt.None? then Failure(NotAcknowledged)
    else
      var e := l.exports[b];
      if e.receipt.value.until < now + setup.retention || now < e.created then Failure(ShortHorizon)
      else if e.payload.None? then Success((l, 0))
      else if e.payload.value != b then Failure(BytesChanged)
      else match PruneRows(setup, l, b, e.payload.value.events, now)
        case Failure(x) => Failure(x)
        case Success(p) => Success((p.0.(exports := p.0.exports[b := e.(payload := None)]), p.1))
  }

  // ---------- monitor ----------

  function TransitionRow(probe: string, e: H.Emission): Row {
    Obligation(Transition(probe, e.sequence, e.state, e.previous, e.at), e.at, e.at)
  }

  function MemoryOf(l: Ledger, probe: string): H.Memory {
    if probe in l.monitors then l.monitors[probe].memory else H.FRESH
  }

  function LastSampleOf(l: Ledger, probe: string): Option<Time> {
    if probe in l.monitors then Some(l.monitors[probe].lastSample) else None
  }

  /** The end of an observation: write the transition if there is one, and the memory. */
  function CommitSample(setup: Setup, l: Ledger, probe: string, decided: (H.Memory, Option<H.Emission>),
                        now: Time): Result<Ledger, Error> {
    var tracked := l.(monitors := l.monitors[probe := Tracked(decided.0, now)]);
    if decided.1.None? then Success(tracked)
    else if |l.events| >= setup.capacity then Failure(CapacityReached)
    else
      var row := TransitionRow(probe, decided.1.value);
      if row.id in l.events then Failure(DuplicateTombstone)
      else Success(tracked.(events := l.events[row.id := row]))
  }

  /** `Monitor.observe`: its INSERT does not consult the tombstones. */
  function Observe(setup: Setup, l: Ledger, probe: string, policy: H.Policy, s: H.Sample): Result<Ledger, Error> {
    if s.outcome !in H.OUTCOMES || s.at < 0.0 then Failure(InvalidObservation)
    else
      var last := LastSampleOf(l, probe);
      if last.Some? && s.at <= last.value then Failure(StaleSample)
      else CommitSample(setup, l, probe, H.Advance(policy, MemoryOf(l, probe), last, s), s.at)
  }
}
