/**
 * Collecting a whole journal by repeated bounded batches (service_watch.py with service_audit.py):
 * however often collectors crash, roll back, restart or overlap, nothing is skipped and nothing doubled.
 */
module Collection {
  import opened Common
  import opened Attribution
  import opened AuditLedger
  import opened LedgerInvariant
  import opened LedgerRuns
  import H = Hysteresis
  import J = Journal

  /** A journal: valid, distinct cursors, and events that carry the cursor of their row. */
  predicate SoundJournal(journal: seq<Record>) {
    && (forall i :: 0 <= i < |journal| ==> journal[i].cursor.Some?)
    && (forall i ::
       0 <= i < |journal| && journal[i].event.Some? ==> journal[i].event.value.cursor == journal[i].cursor.value)
    && (forall i, j :: 0 <= i < j < |journal| ==> journal[i].cursor != journal[j].cursor)
  }

  lemma ReadingsAreSound(rows: seq<JournalRow>, units: set<string>)
    requires forall i :: 0 <= i < |rows| ==> ValidCursor(rows[i].cursor)
    requires forall i, j :: 0 <= i < j < |rows| ==> rows[i].cursor != rows[j].cursor
    ensures SoundJournal(ReadAll(rows, units))
  {
    var journal := ReadAll(rows, units);
    forall i, j | 0 <= i < j < |journal| ensures journal[i].cursor != journal[j].cursor {
      assert rows[i].cursor != rows[j].cursor;
    }
  }

  function CursorAt(journal: seq<Record>, p: nat): Option<string>
    requires p <= |journal|
  {
    if p == 0 then None else journal[p - 1].cursor
  }

  /** The position from which journalctl resumes: after the stored cursor, or at the start. */
  predicate Resumes(journal: seq<Record>, cursor: Option<string>, p: nat) {
    p <= |journal| && CursorAt(journal, p) == cursor
  }

  /** A batch a collector may have read: some first records after the given cursor. */
  predicate Offered(journal: seq<Record>, cursor: Option<string>, rows: seq<Record>) {
    exists p: nat, q: nat :: p <= q <= |journal| && Resumes(journal, cursor, p) && rows == journal[p..q]
  }

  /** The position at which a cursor stands in the journal. */
  ghost function Position(journal: seq<Record>, cursor: Option<string>): nat {
    if exists p: nat :: Resumes(journal, cursor, p) then
      var p: nat :| Resumes(journal, cursor, p); p
    else 0
  }

  /**
   * What journalctl prints after position p, read by a collector under any cut, limit and ending, is a
   * batch offered from the cursor at p: the bytes of the reader meet the rows of the ledger.
   */
  lemma ReadBatchIsOffered(parse: seq<J.Byte> -> Option<JournalRow>, lines: seq<seq<J.Byte>>, rows: seq<JournalRow>,
                           units: set<string>,
                           p: nat, s: seq<J.Byte>, limit: nat, ending: J.Ending)
    requires p <= |rows| == |lines| && limit > 0 && s <= J.Framed(lines[p..])
    requires forall i :: 0 <= i < |rows| ==> J.NEWLINE !in lines[i] && parse(lines[i]) == Some(rows[i])
    requires J.Batch(parse, s, limit, ending).Success?
    ensures var journal, taken := ReadAll(rows, units), J.Batch(parse, s, limit, ending).value;
            Offered(journal, CursorAt(journal, p), ReadAll(taken, units))
  {
    var journal, taken := ReadAll(rows, units), J.Batch(parse, s, limit, ending).value;
    J.BatchOfFramed(parse, lines[p..], rows[p..], s, limit, ending);
    var q := p + |taken|;
    forall i | 0 <= i < |taken| ensures ReadAll(taken, units)[i] == journal[p..q][i] {
      assert taken[i] == rows[p..][i];
    }
    assert ReadAll(taken, units) == journal[p..q];
    assert Resumes(journal, CursorAt(journal, p), p);
  }

  /** And if all of it is printed, a successful batch is the next `limit` rows, or all that are left. */
  lemma ReadBatchIsFull(parse: seq<J.Byte> -> Option<JournalRow>, lines: seq<seq<J.Byte>>, rows: seq<JournalRow>,
                        units: set<string>,
                        p: nat, limit: nat, ending: J.Ending)
    requires p <= |rows| == |lines| && limit > 0
    requires forall i :: 0 <= i < |rows| ==> J.NEWLINE !in lines[i] && parse(lines[i]) == Some(rows[i])
    requires J.Batch(parse, J.Framed(lines[p..]), limit, ending).Success?
    ensures ReadAll(J.Batch(parse, J.Framed(lines[p..]), limit, ending).value, units)
            == NextRows(ReadAll(rows, units), p, limit)
  {
    var journal, taken := ReadAll(rows, units), J.Batch(parse, J.Framed(lines[p..]), limit, ending).value;
    J.BatchOfAllFramed(parse, lines[p..], rows[p..], limit, ending);
    TakenRows(rows, units, p, Min(|rows|, p + limit), taken);
  }

  lemma TakenRows(rows: seq<JournalRow>, units: set<string>, p: nat, q: nat, taken: seq<JournalRow>)
    requires p <= q <= |rows| && taken == rows[p..][..q - p]
    ensures ReadAll(taken, units) == ReadAll(rows, units)[p..q]
  {
    assert taken == rows[p..q];
  }

  /** The next `limit` rows after position p, or as many as there are. */
  function NextRows(journal: seq<Record>, p: nat, limit: nat): seq<Record>
    requires p <= |journal|
  {
    journal[p..Min(|journal|, p + limit)]
  }

  /**
   * Runs in which every collector reads this journal. A collector takes the stored cursor, reads for
   * seconds and commits later without a lock, so a batch may start at any cursor the store held before.
   */
  ghost predicate Honest(setup: Setup, l: Ledger, ops: seq<Op>, journal: seq<Record>, held: set<Option<string>>)
    requires ValidSetup(setup)
    decreases |ops|
  {
    ops == [] ||
    ((ops[0].Ingest? ==> OfferedFrom(journal, held, ops[0].rows))
     && var l1 := Apply(setup, l, ops[0]); Honest(setup, l1, ops[1..], journal, held + {l1.cursor}))
  }

  ghost predicate OfferedFrom(journal: seq<Record>, held: set<Option<string>>, rows: seq<Record>) {
    exists c <- held :: Offered(journal, c, rows)
  }

  /** Runs in which no other collector commits between the read and the commit of one. */
  ghost predicate Serial(setup: Setup, l: Ledger, ops: seq<Op>, journal: seq<Record>)
    requires ValidSetup(setup)
    decreases |ops|
  {
    ops == [] ||
    ((ops[0].Ingest? ==> Offered(journal, l.cursor, ops[0].rows))
     && Serial(setup, Apply(setup, l, ops[0]), ops[1..], journal))
  }

  /** Every cursor that a run stores. */
  ghost function Stored(setup: Setup, l: Ledger, ops: seq<Op>): set<Option<string>>
    requires ValidSetup(setup)
    decreases |ops|
  {
    if ops == [] then {l.cursor} else {l.cursor} + Stored(setup, Apply(setup, l, ops[0]), ops[1..])
  }

  function Max(a: nat, b: nat): nat {
    if a < b then b else a
  }

  /** The furthest position at which the cursor stood during a run, or m. */
  ghost function HighWater(setup: Setup, l: Ledger, ops: seq<Op>, journal: seq<Record>, m: nat): nat
    requires ValidSetup(setup)
    decreases |ops|
  {
    if ops == [] then m
    else
      var l1 := Apply(setup, l, ops[0]);
      HighWater(setup, l1, ops[1..], journal, Max(m, Position(journal, l1.cursor)))
  }

  /** Exactly the first m records have been taken: each of their events is known, as it was read. */
  ghost predicate Covered(l: Ledger, journal: seq<Record>, m: nat) {
    && m <= |journal|
    && (forall boot: string, c: string :: Journal(boot, c) in Known(l) <==> Journal(boot, c) in EventKeys(journal[..m]))
    && (forall i :: 0 <= i < m && journal[i].event.Some? && journal[i].event.value.Id() in l.events ==>
          l.events[journal[i].event.value.Id()].payload == Service(journal[i].event.value))
  }

  /** A cursor of this journal, at or before position m. */
  ghost predicate Within(journal: seq<Record>, cursor: Option<string>, m: nat) {
    Resumes(journal, cursor, Position(journal, cursor)) && Position(journal, cursor) <= m
  }

  ghost predicate AllWithin(journal: seq<Record>, held: set<Option<string>>, m: nat) {
    forall c <- held :: Within(journal, c, m)
  }

  lemma PositionIs(journal: seq<Record>, cursor: Option<string>, p: nat)
    requires SoundJournal(journal) && Resumes(journal, cursor, p)
    ensures Position(journal, cursor) == p && Resumes(journal, cursor, Position(journal, cursor))
  {
  }

  // ---------- a committed batch ----------

  lemma EventKeysConcat(a: seq<Record>, b: seq<Record>)
    ensures EventKeys(a + b) == EventKeys(a) + EventKeys(b)
  {
    assert forall r :: r in a + b <==> r in a || r in b;
  }

  /** An event recorded from a batch is the event of one of its records. */
  lemma {:induction false} AddedPayloads(capacity: nat, events: map<Key, Row>, archived: set<Key>, rows: seq<Record>,
                                         now: Time, next: Time, id: Key)
    requires AddEvents(capacity, events, archived, rows, now, next).Success?
    requires id in AddEvents(capacity, events, archived, rows, now, next).value && id !in events
    ensures exists i ::
            0 <= i < |rows| && FromRecord(rows[i], id, AddEvents(capacity, events, archived, rows, now, next).value[id])
    decreases |rows|
  {
    if rows != [] {
      var more := AddEvent(capacity, events, archived, rows[0], now, next).value;
      var all := AddEvents(capacity, more, archived, rows[1..], now, next).value;
      if id in more {
        IngestExtends(capacity, more, archived, rows[1..], now, next);
        assert FromRecord(rows[0], id, all[id]);
      } else {
        AddedPayloads(capacity, more, archived, rows[1..], now, next, id);
        var i :| 0 <= i < |rows[1..]| && FromRecord(rows[1..][i], id, all[id]);
        assert FromRecord(rows[i + 1], id, all[id]);
      }
    }
  }

  predicate FromRecord(r: Record, id: Key, row: Row) {
    r.event.Some? && r.event.value.Id() == id && row.payload == Service(r.event.value)
  }

  lemma SameIdSameRecord(journal: seq<Record>, i: nat, j: nat)
    requires SoundJournal(journal) && i < |journal| && j < |journal|
    requires journal[i].event.Some? && journal[j].event.Some?
             && journal[i].event.value.Id() == journal[j].event.value.Id()
    ensures i == j
  {
    assert journal[i].event.value.cursor == journal[i].cursor.value;
    assert journal[j].event.value.cursor == journal[j].cursor.value;
  }

  lemma BatchAdvances(setup: Setup, l: Ledger, l1: Ledger, journal: seq<Record>, m: nat, p: nat, q: nat,
                      units: set<string>, now: Time, grace: Time)
    requires SoundJournal(journal) && Covered(l, journal, m) && p <= m && p <= q <= |journal|
    requires IngestBatch(setup, l, journal[p..q], units, now, grace) == Success(l1)
    ensures Covered(l1, journal, Max(m, q))
  {
    var rows := journal[p..q];
    IngestCommits(setup, l, l1, rows, units, now, grace);
    IngestExtends(setup.capacity, l.events, l.archived.Keys, rows, now, now + grace);
    BatchKeys(l, l1, journal, m, p, q);
    BatchPayloads(setup, l, l1, journal, m, p, q, now, now + grace);
  }

  /** A batch that starts inside what was taken overlaps it and leaves no gap. */
  lemma OverlapKeys(journal: seq<Record>, m: nat, p: nat, q: nat)
    requires p <= m <= |journal| && p <= q <= |journal|
    ensures EventKeys(journal[..m]) + EventKeys(journal[p..q]) == EventKeys(journal[..Max(m, q)])
  {
    if q <= m {
      assert journal[..m] == journal[..p] + journal[p..q] + journal[q..m];
      EventKeysConcat(journal[..p] + journal[p..q], journal[q..m]);
      EventKeysConcat(journal[..p], journal[p..q]);
    } else {
      assert journal[p..q] == journal[p..m] + journal[m..q];
      EventKeysConcat(journal[p..m], journal[m..q]);
      assert journal[..q] == journal[..m] + journal[m..q];
      EventKeysConcat(journal[..m], journal[m..q]);
      assert journal[..m] == journal[..p] + journal[p..m];
      EventKeysConcat(journal[..p], journal[p..m]);
    }
  }

  lemma BatchKeys(l: Ledger, l1: Ledger, journal: seq<Record>, m: nat, p: nat, q: nat)
    requires p <= m <= |journal| && p <= q <= |journal| && l1.archived == l.archived
    requires l1.events.Keys == l.events.Keys + (EventKeys(journal[p..q]) - l.archived.Keys)
    requires forall boot: string, c: string ::
             Journal(boot, c) in Known(l) <==> Journal(boot, c) in EventKeys(journal[..m])
    ensures forall boot: string, c: string ::
            Journal(boot, c) in Known(l1) <==> Journal(boot, c) in EventKeys(journal[..Max(m, q)])
  {
    OverlapKeys(journal, m, p, q);
    assert Known(l1) == Known(l) + EventKeys(journal[p..q]);
  }

  lemma BatchPayloads(setup: Setup, l: Ledger, l1: Ledger, journal: seq<Record>, m: nat, p: nat, q: nat, now: Time,
                      next: Time)
    requires SoundJournal(journal) && p <= q <= |journal| && Covered(l, journal, m)
    requires AddEvents(setup.capacity, l.events, l.archived.Keys, journal[p..q], now, next) == Success(l1.events)
    requires forall id <- l.events :: id in l1.events && l1.events[id] == l.events[id]
    ensures forall i :: 0 <= i < Max(m, q) && journal[i].event.Some? && journal[i].event.value.Id() in l1.events ==>
              l1.events[journal[i].event.value.Id()].payload == Service(journal[i].event.value)
  {
    forall i | 0 <= i < Max(m, q) && journal[i].event.Some? && journal[i].event.value.Id() in l1.events
      ensures l1.events[journal[i].event.value.Id()].payload == Service(journal[i].event.value)
    {
      BatchPayload(setup, l, l1, journal, m, p, q, now, next, i);
    }
  }

  lemma BatchCursor(setup: Setup, l: Ledger, l1: Ledger, rows: seq<Record>, units: set<string>, now: Time, grace: Time)
    requires IngestBatch(setup, l, rows, units, now, grace) == Success(l1)
    ensures l1.cursor == CursorAfter(l.cursor, rows)
  {
  }

  lemma BatchPayload(setup: Setup, l: Ledger, l1: Ledger, journal: seq<Record>, m: nat, p: nat, q: nat, now: Time,
                     next: Time, i: nat)
    requires SoundJournal(journal) && p <= q <= |journal| && i < |journal| && journal[i].event.Some?
    requires AddEvents(setup.capacity, l.events, l.archived.Keys, journal[p..q], now, next) == Success(l1.events)
    requires forall id <- l.events :: id in l1.events && l1.events[id] == l.events[id]
    requires journal[i].event.value.Id() in l1.events
    requires Covered(l, journal, m)
    ensures l1.events[journal[i].event.value.Id()].payload == Service(journal[i].event.value)
  {
    var id := journal[i].event.value.Id();
    if id in l.events {
      KnownIndex(l, journal, m, i);
    } else {
      NewPayload(setup.capacity, l.events, l.archived.Keys, l1.events, journal, p, q, now, next, i, id);
    }
  }

  lemma NewPayload(capacity: nat, events: map<Key, Row>, archived: set<Key>, more: map<Key, Row>, journal: seq<Record>,
                   p: nat, q: nat, now: Time, next: Time, i: nat, id: Key)
    requires SoundJournal(journal) && p <= q <= |journal| && i < |journal|
    requires journal[i].event.Some? && journal[i].event.value.Id() == id
    requires AddEvents(capacity, events, archived, journal[p..q], now, next) == Success(more)
    requires id in more && id !in events
    ensures more[id].payload == Service(journal[i].event.value)
  {
    var rows := journal[p..q];
    AddedPayloads(capacity, events, archived, rows, now, next, id);
    var j :| 0 <= j < |rows| && FromRecord(rows[j], id, more[id]);
    assert rows[j] == journal[p + j];
    SameIdSameRecord(journal, i, p + j);
  }

  /** An event among the first n records is the event of one of them. */
  lemma KeyIndex(journal: seq<Record>, i: nat, n: nat)
    requires SoundJournal(journal) && i < |journal| && n <= |journal| && journal[i].event.Some?
    ensures journal[i].event.value.Id() in EventKeys(journal[..n]) ==> i < n
  {
    var id := journal[i].event.value.Id();
    if id in EventKeys(journal[..n]) {
      var r :| r in journal[..n] && r.event.Some? && r.event.value.Id() == id;
      var j :| 0 <= j < n && journal[j] == r;
      SameIdSameRecord(journal, i, j);
    }
  }

  /** A known event of the journal lies before position m. */
  lemma KnownIndex(l: Ledger, journal: seq<Record>, m: nat, i: nat)
    requires SoundJournal(journal) && Covered(l, journal, m) && i < |journal|
    requires journal[i].event.Some? && journal[i].event.value.Id() in Known(l)
    ensures i < m
  {
    assert Journal(journal[i].event.value.boot, journal[i].event.value.cursor) in EventKeys(journal[..m]);
    KeyIndex(journal, i, m);
  }

  // ---------- other transactions ----------

  /** Everything but a committed batch leaves the cursor, the journal identities and their payloads alone. */
  ghost predicate Untouched(l: Ledger, l1: Ledger) {
    && l1.cursor == l.cursor
    && (forall boot: string, c: string :: Journal(boot, c) in Known(l1) <==> Journal(boot, c) in Known(l))
    && (forall id <- l1.events :: id.Journal? ==> id in l.events && l1.events[id].payload == l.events[id].payload)
  }

  lemma UntouchedCovered(l: Ledger, l1: Ledger, journal: seq<Record>, m: nat)
    requires Covered(l, journal, m) && Untouched(l, l1)
    ensures Covered(l1, journal, m)
  {
  }

  lemma ClaimUntouched(setup: Setup, l: Ledger, now: Time)
    requires ValidSetup(setup)
    ensures Untouched(l, AfterClaim(setup, l, now))
  {
    var next := NextClaim(setup, l, now);
    if next.Some? {
      assert Known(ClaimRow(l, next.value, now)) == Known(l);
    }
  }

  lemma SettleUntouched(l: Ledger, id: Key, reply: Reply)
    ensures Untouched(l, SettleRow(l, id, reply))
  {
    if id in l.events {
      var l1 := SettleRow(l, id, reply);
      SettledRow(l, l1, id, reply);
      SettleCursor(l, id, reply);
      SettledUntouched(l, l1, id);
    }
  }

  lemma SettleCursor(l: Ledger, id: Key, reply: Reply)
    ensures SettleRow(l, id, reply).cursor == l.cursor
  {
  }

  lemma SettledUntouched(l: Ledger, l1: Ledger, id: Key)
    requires id in l.events && Settles(l, l1, id) && l1.cursor == l.cursor
    ensures Untouched(l, l1)
  {
    assert Known(l1) == Known(l);
  }

  lemma ExportUntouched(setup: Setup, l: Ledger, now: Time, limit: int)
    requires ValidSetup(setup)
    ensures Untouched(l, Prepare(setup, l, now, limit).0)
  {
    PrepareCommits(setup, l, now, limit);
  }

  lemma FailedIngestUntouched(setup: Setup, l: Ledger, rows: seq<Record>, units: set<string>, now: Time, grace: Time)
    requires IngestBatch(setup, l, rows, units, now, grace).Failure?
    ensures Untouched(l, AfterIngest(setup, l, rows, units, now, grace))
  {
  }

  lemma ReconcileUntouched(l: Ledger, receipts: seq<JobReceipt>)
    ensures Untouched(l, AfterReconcile(l, receipts))
  {
    match ReconcileAll(l, receipts)
    case Success(l1) =>
      ReconcileCommits(l, l1, receipts);
      ReconcileCursor(l, l1, receipts);
    case Failure(_) =>
      assert Claimed(l, "service-control") == l || Claimed(l, "service-control") == l.(kind := Some("service-control"));
  }

  lemma ReconcileCursor(l: Ledger, l1: Ledger, receipts: seq<JobReceipt>)
    requires ReconcileAll(l, receipts) == Success(l1)
    ensures l1.cursor == l.cursor
  {
  }

  lemma ObserveUntouched(setup: Setup, l: Ledger, probe: string, policy: H.Policy, s: H.Sample)
    ensures Untouched(l, AfterObserve(setup, l, probe, policy, s))
  {
    match Observe(setup, l, probe, policy, s)
    case Failure(_) =>
    case Success(l1) => ObserveCommits(setup, l, l1, probe, policy, s);
  }

  lemma PruneUntouched(setup: Setup, l: Ledger, b: Bundle, now: Time)
    requires Inv(setup, l)
    ensures Untouched(l, AfterPrune(setup, l, b, now))
  {
    match Prune(setup, l, b, now)
    case Failure(_) =>
    case Success(p) => PruneCommits(setup, l, b, now);
  }

  lemma OthersUntouched(setup: Setup, l: Ledger, op: Op)
    requires ValidSetup(setup) && Inv(setup, l)
    requires op.Ingest? ==> IngestBatch(setup, l, op.rows, op.units, op.now, op.grace).Failure?
    ensures Untouched(l, Apply(setup, l, op))
  {
    match op
    case Ingest(rows, units, now, grace) => FailedIngestUntouched(setup, l, rows, units, now, grace);
    case Reconcile(receipts) => ReconcileUntouched(l, receipts);
    case ClaimNext(now) => ClaimUntouched(setup, l, now);
    case SettleClaim(id, reply) => SettleUntouched(l, id, reply);
    case MakeExport(now, limit) => ExportUntouched(setup, l, now, limit);
    case Receive(b, receipt, clock) =>
    case Remove(b, now) => PruneUntouched(setup, l, b, now);
    case ObserveProbe(probe, policy, s) => ObserveUntouched(setup, l, probe, policy, s);
    case Crash =>
  }

  // ---------- runs ----------

  /** Where a committed batch leaves the cursor. */
  lemma BatchEnds(journal: seq<Record>, cursor: Option<string>, p: nat, q: nat, rows: seq<Record>,
                  cursor1: Option<string>)
    requires SoundJournal(journal) && p <= q <= |journal| && rows == journal[p..q]
             && cursor1 == CursorAfter(cursor, rows)
    requires Resumes(journal, cursor, Position(journal, cursor))
    ensures Position(journal, cursor1) == (if rows == [] then Position(journal, cursor) else q)
    ensures Resumes(journal, cursor1, Position(journal, cursor1))
  {
    if rows != [] {
      assert rows[|rows| - 1] == journal[q - 1];
      PositionIs(journal, cursor1, q);
    }
  }

  lemma CommitMoves(setup: Setup, l: Ledger, l1: Ledger, journal: seq<Record>, m: nat, p: nat, q: nat,
                    rows: seq<Record>,
                    units: set<string>, now: Time, grace: Time)
    requires SoundJournal(journal) && Covered(l, journal, m) && Within(journal, l.cursor, m)
    requires p <= m && p <= q <= |journal| && rows == journal[p..q]
    requires IngestBatch(setup, l, rows, units, now, grace) == Success(l1)
    ensures Position(journal, l1.cursor) == (if rows == [] then Position(journal, l.cursor) else q)
    ensures Resumes(journal, l1.cursor, Position(journal, l1.cursor))
    ensures Covered(l1, journal, Max(m, Position(journal, l1.cursor)))
  {
    BatchAdvances(setup, l, l1, journal, m, p, q, units, now, grace);
    BatchCursor(setup, l, l1, rows, units, now, grace);
    BatchEnds(journal, l.cursor, p, q, rows, l1.cursor);
  }

  /** A committed batch takes the journal on to its end, and leaves the cursor there even if that is back. */
  lemma IngestMoves(setup: Setup, l: Ledger, journal: seq<Record>, m: nat, c: Option<string>, rows: seq<Record>,
                    units: set<string>, now: Time, grace: Time)
    requires SoundJournal(journal) && Covered(l, journal, m) && Within(journal, l.cursor, m)
    requires Within(journal, c, m) && Offered(journal, c, rows)
    requires IngestBatch(setup, l, rows, units, now, grace).Success?
    ensures var l1 := AfterIngest(setup, l, rows, units, now, grace);
            var q := Position(journal, c) + |rows|;
            && Position(journal, l1.cursor) == (if rows == [] then Position(journal, l.cursor) else q)
            && Resumes(journal, l1.cursor, Position(journal, l1.cursor))
            && Covered(l1, journal, Max(m, Position(journal, l1.cursor)))
  {
    var p: nat, q: nat :| p <= q <= |journal| && Resumes(journal, c, p) && rows == journal[p..q];
    PositionIs(journal, c, p);
    match IngestBatch(setup, l, rows, units, now, grace)
    case Success(l1) => CommitMoves(setup, l, l1, journal, m, p, q, rows, units, now, grace);
  }

  /** A commit puts the cursor back exactly when its batch is not empty and ends before where the cursor stands. */
  lemma CommitFallsBack(setup: Setup, l: Ledger, journal: seq<Record>, m: nat, c: Option<string>, rows: seq<Record>,
                        units: set<string>, now: Time, grace: Time)
    requires SoundJournal(journal) && Covered(l, journal, m) && Within(journal, l.cursor, m)
    requires Within(journal, c, m) && Offered(journal, c, rows)
    requires IngestBatch(setup, l, rows, units, now, grace).Success?
    ensures var l1, p := AfterIngest(setup, l, rows, units, now, grace), Position(journal, l.cursor);
            Position(journal, l1.cursor) < p <==> rows != [] && Position(journal, c) + |rows| < p
  {
    IngestMoves(setup, l, journal, m, c, rows, units, now, grace);
  }

  lemma StepCovered(setup: Setup, l: Ledger, op: Op, l1: Ledger, journal: seq<Record>, m: nat,
                    held: set<Option<string>>)
    requires ValidSetup(setup) && Inv(setup, l) && SoundJournal(journal) && l1 == Apply(setup, l, op)
    requires Covered(l, journal, m) && l.cursor in held && AllWithin(journal, held, m)
    requires op.Ingest? ==> OfferedFrom(journal, held, op.rows)
    ensures Inv(setup, l1) && Resumes(journal, l1.cursor, Position(journal, l1.cursor))
    ensures Covered(l1, journal, Max(m, Position(journal, l1.cursor)))
  {
    StepKeeps(setup, l, op);
    if op.Ingest? && IngestBatch(setup, l, op.rows, op.units, op.now, op.grace).Success? {
      var c :| c in held && Offered(journal, c, op.rows);
      IngestMoves(setup, l, journal, m, c, op.rows, op.units, op.now, op.grace);
    } else {
      OthersUntouched(setup, l, op);
      UntouchedCovered(l, l1, journal, m);
      assert Within(journal, l.cursor, m);
    }
  }

  /** What holds at the end of a run that started with the first m records taken. */
  ghost predicate Collected(setup: Setup, l: Ledger, ops: seq<Op>, journal: seq<Record>, m: nat, high: nat)
    requires ValidSetup(setup)
  {
    && m <= high
    && Covered(Run(setup, l, ops), journal, high)
    && Within(journal, Run(setup, l, ops).cursor, high)
    && AllWithin(journal, Stored(setup, l, ops), high)
    && (high == m || exists c <- Stored(setup, l, ops) :: Position(journal, c) == high)
  }

  lemma {:induction false} RunCollects(setup: Setup, l: Ledger, ops: seq<Op>, journal: seq<Record>, m: nat,
                                       held: set<Option<string>>)
    requires ValidSetup(setup) && Inv(setup, l) && SoundJournal(journal) && Honest(setup, l, ops, journal, held)
    requires Covered(l, journal, m) && l.cursor in held && AllWithin(journal, held, m)
    ensures Collected(setup, l, ops, journal, m, HighWater(setup, l, ops, journal, m))
    decreases |ops|
  {
    if ops == [] {
      assert Within(journal, l.cursor, m);
    } else {
      var l1 := Apply(setup, l, ops[0]);
      StepCovered(setup, l, ops[0], l1, journal, m, held);
      var m1 := Max(m, Position(journal, l1.cursor));
      assert AllWithin(journal, held + {l1.cursor}, m1) by {
        forall c | c in held ensures Within(journal, c, m1) { assert Within(journal, c, m); }
      }
      RunCollects(setup, l1, ops[1..], journal, m1, held + {l1.cursor});
      CollectedBefore(setup, l, ops, l1, journal, m, m1, HighWater(setup, l1, ops[1..], journal, m1));
    }
  }

  lemma CollectedBefore(setup: Setup, l: Ledger, ops: seq<Op>, l1: Ledger, journal: seq<Record>, m: nat, m1: nat,
                        high: nat)
    requires ValidSetup(setup) && ops != [] && l1 == Apply(setup, l, ops[0])
    requires m1 == Max(m, Position(journal, l1.cursor)) && Within(journal, l.cursor, m)
    requires Collected(setup, l1, ops[1..], journal, m1, high)
    ensures Collected(setup, l, ops, journal, m, high)
  {
    var later := Stored(setup, l1, ops[1..]);
    assert Stored(setup, l, ops) == {l.cursor} + later;
    assert l1.cursor in later;
    forall c | c in Stored(setup, l, ops) ensures Within(journal, c, high) {
      if c in later { } else { assert c == l.cursor; }
    }
  }

  /**
   * Collection is exact: in any run of collectors that overlap in any way, mixed with every other
   * process, with failed, crashed and repeated batches, the ledger knows exactly the events of the
   * journal up to the furthest position its cursor ever had, each with the payload it was read with.
   * The cursor stands at or before that position, so nothing is skipped; it stands there exactly when
   * no cursor stored before was further.
   */
  lemma CollectionIsExact(setup: Setup, ops: seq<Op>, journal: seq<Record>)
    requires ValidSetup(setup) && SoundJournal(journal) && Honest(setup, EMPTY, ops, journal, {None})
    ensures var l, m := Run(setup, EMPTY, ops), HighWater(setup, EMPTY, ops, journal, 0);
            && Covered(l, journal, m)
            && Within(journal, l.cursor, m)
            && (Position(journal, l.cursor) == m
                <==> forall c <- Stored(setup, EMPTY, ops) :: Position(journal, c) <= Position(journal, l.cursor))
  {
    Beginning(setup, journal);
    RunCollects(setup, EMPTY, ops, journal, 0, {None});
    var l, m := Run(setup, EMPTY, ops), HighWater(setup, EMPTY, ops, journal, 0);
    if m != 0 {
      var c :| c in Stored(setup, EMPTY, ops) && Position(journal, c) == m;
    }
    forall c | c in Stored(setup, EMPTY, ops) ensures Position(journal, c) <= m {
      assert Within(journal, c, m);
    }
  }

  lemma Beginning(setup: Setup, journal: seq<Record>)
    requires ValidSetup(setup) && SoundJournal(journal)
    ensures Inv(setup, EMPTY) && Covered(EMPTY, journal, 0) && AllWithin(journal, {None}, 0)
  {
    assert journal[..0] == [] && EventKeys(journal[..0]) == {};
    PositionIs(journal, None, 0);
  }

  /** The ledger knows the events up to its cursor and no others exactly when the records after it hold none. */
  lemma CursorIsExact(setup: Setup, ops: seq<Op>, journal: seq<Record>)
    requires ValidSetup(setup) && SoundJournal(journal) && Honest(setup, EMPTY, ops, journal, {None})
    ensures var l, m := Run(setup, EMPTY, ops), HighWater(setup, EMPTY, ops, journal, 0);
            var p := Position(journal, l.cursor);
            && p <= m <= |journal|
            && (Covered(l, journal, p) <==> EventKeys(journal[p..m]) == {})
  {
    CollectionIsExact(setup, ops, journal);
    var l, m := Run(setup, EMPTY, ops), HighWater(setup, EMPTY, ops, journal, 0);
    CoveredEarlier(l, journal, Position(journal, l.cursor), m);
  }

  /** An event after position n is not among those before it. */
  lemma LaterIsNew(journal: seq<Record>, n: nat, m: nat, id: Key)
    requires SoundJournal(journal) && n <= m <= |journal| && id in EventKeys(journal[n..m])
    ensures id !in EventKeys(journal[..n])
  {
    var r :| r in journal[n..m] && r.event.Some? && r.event.value.Id() == id;
    var i :| n <= i < m && journal[i] == r;
    KeyIndex(journal, i, n);
  }

  lemma CoveredEarlier(l: Ledger, journal: seq<Record>, p: nat, m: nat)
    requires SoundJournal(journal) && Covered(l, journal, m) && p <= m
    ensures Covered(l, journal, p) <==> EventKeys(journal[p..m]) == {}
  {
    assert journal[..m] == journal[..p] + journal[p..m];
    EventKeysConcat(journal[..p], journal[p..m]);
    if EventKeys(journal[p..m]) != {} {
      var r :| r in journal[p..m] && r.event.Some?;
      assert Journal(r.event.value.boot, r.event.value.cursor) in EventKeys(journal[p..m]);
      LaterIsNew(journal, p, m, r.event.value.Id());
    }
  }

  // ---------- serial collectors ----------

  lemma {:induction false} SerialIsHonest(setup: Setup, l: Ledger, ops: seq<Op>, journal: seq<Record>,
                                          held: set<Option<string>>)
    requires ValidSetup(setup) && Serial(setup, l, ops, journal) && l.cursor in held
    ensures Honest(setup, l, ops, journal, held)
    decreases |ops|
  {
    if ops != [] {
      var l1 := Apply(setup, l, ops[0]);
      SerialIsHonest(setup, l1, ops[1..], journal, held + {l1.cursor});
    }
  }

  /** One serial step never moves the cursor back. */
  lemma SerialStep(setup: Setup, l: Ledger, op: Op, l1: Ledger, journal: seq<Record>)
    requires ValidSetup(setup) && Inv(setup, l) && SoundJournal(journal) && l1 == Apply(setup, l, op)
    requires Covered(l, journal, Position(journal, l.cursor)) && Resumes(journal, l.cursor, Position(journal, l.cursor))
    requires op.Ingest? ==> Offered(journal, l.cursor, op.rows)
    ensures Inv(setup, l1) && Position(journal, l.cursor) <= Position(journal, l1.cursor)
    ensures Covered(l1, journal, Position(journal, l1.cursor))
            && Resumes(journal, l1.cursor, Position(journal, l1.cursor))
  {
    var m := Position(journal, l.cursor);
    assert Within(journal, l.cursor, m);
    StepCovered(setup, l, op, l1, journal, m, {l.cursor});
    if op.Ingest? && IngestBatch(setup, l, op.rows, op.units, op.now, op.grace).Success? {
      IngestMoves(setup, l, journal, m, l.cursor, op.rows, op.units, op.now, op.grace);
    } else {
      OthersUntouched(setup, l, op);
    }
  }

  lemma {:induction false} SerialRun(setup: Setup, l: Ledger, ops: seq<Op>, journal: seq<Record>)
    requires ValidSetup(setup) && Inv(setup, l) && SoundJournal(journal) && Serial(setup, l, ops, journal)
    requires Covered(l, journal, Position(journal, l.cursor)) && Resumes(journal, l.cursor, Position(journal, l.cursor))
    ensures var l1 := Run(setup, l, ops);
            Position(journal, l.cursor) <= Position(journal, l1.cursor)
                && Covered(l1, journal, Position(journal, l1.cursor))
    decreases |ops|
  {
    if ops != [] {
      var l1 := Apply(setup, l, ops[0]);
      SerialStep(setup, l, ops[0], l1, journal);
      SerialRun(setup, l1, ops[1..], journal);
    }
  }

  /**
   * As long as no collector commits between the read and the commit of another, the cursor marks exactly what is
   * known.
   */
  lemma SerialCollectionIsExact(setup: Setup, ops: seq<Op>, journal: seq<Record>)
    requires ValidSetup(setup) && SoundJournal(journal) && Serial(setup, EMPTY, ops, journal)
    ensures Honest(setup, EMPTY, ops, journal, {None})
    ensures var l := Run(setup, EMPTY, ops); Covered(l, journal, Position(journal, l.cursor))
  {
    SerialIsHonest(setup, EMPTY, ops, journal, {None});
    Beginning(setup, journal);
    assert Within(journal, None, 0);
    SerialRun(setup, EMPTY, ops, journal);
  }

  // ---------- progress ----------

  /** Serial runs in which every batch is as long as the limit and the journal allow. */
  ghost predicate FullSerial(setup: Setup, l: Ledger, ops: seq<Op>, journal: seq<Record>, limit: nat)
    requires ValidSetup(setup)
    decreases |ops|
  {
    ops == [] ||
    ((ops[0].Ingest? ==> FullBatch(journal, l.cursor, ops[0].rows, limit))
     && FullSerial(setup, Apply(setup, l, ops[0]), ops[1..], journal, limit))
  }

  ghost predicate Committing(setup: Setup, l: Ledger, op: Op) {
    op.Ingest? && IngestBatch(setup, l, op.rows, op.units, op.now, op.grace).Success?
  }

  /** The number of batches a run commits; the others raised and changed nothing but perhaps the kind. */
  ghost function Committed(setup: Setup, l: Ledger, ops: seq<Op>): nat
    requires ValidSetup(setup)
    decreases |ops|
  {
    if ops == [] then 0
    else (if Committing(setup, l, ops[0]) then 1 else 0) + Committed(setup, Apply(setup, l, ops[0]), ops[1..])
  }

  /** The ledgers that have taken exactly the first p records, with the cursor behind them. */
  ghost function TakenTo(journal: seq<Record>, p: nat): iset<Ledger> {
    iset l: Ledger | Covered(l, journal, p) && Resumes(journal, l.cursor, p) && Position(journal, l.cursor) == p
  }

  ghost predicate FullBatch(journal: seq<Record>, cursor: Option<string>, rows: seq<Record>, limit: nat) {
    var p := Position(journal, cursor);
    p <= |journal| && rows == NextRows(journal, p, limit)
  }

  /** One committed batch takes the cursor `limit` records on, and anything else leaves it. */
  lemma FullStep(setup: Setup, l: Ledger, op: Op, l1: Ledger, journal: seq<Record>, limit: nat, p: nat)
    returns (p1: nat)
    requires ValidSetup(setup) && Inv(setup, l) && SoundJournal(journal) && l1 == Apply(setup, l, op)
    requires l in TakenTo(journal, p) && (op.Ingest? ==> FullBatch(journal, l.cursor, op.rows, limit))
    ensures Inv(setup, l1) && l1 in TakenTo(journal, p1)
    ensures p1 == if Committing(setup, l, op) then Min(|journal|, p + limit) else p
  {
    StepKeeps(setup, l, op);
    p1 := if Committing(setup, l, op) then Min(|journal|, p + limit) else p;
    if Committing(setup, l, op) {
      FullCommit(setup, l, l1, journal, op.rows, limit, p, op.units, op.now, op.grace);
    } else {
      OthersUntouched(setup, l, op);
      StaysTaken(l, l1, journal, p);
    }
  }

  lemma StaysTaken(l: Ledger, l1: Ledger, journal: seq<Record>, p: nat)
    requires l in TakenTo(journal, p) && Untouched(l, l1)
    ensures l1 in TakenTo(journal, p)
  {
    UntouchedCovered(l, l1, journal, p);
  }

  lemma FullCommit(setup: Setup, l: Ledger, l1: Ledger, journal: seq<Record>, rows: seq<Record>, limit: nat, p: nat,
                   units: set<string>, now: Time, grace: Time)
    requires SoundJournal(journal) && l in TakenTo(journal, p) && FullBatch(journal, l.cursor, rows, limit)
    requires IngestBatch(setup, l, rows, units, now, grace) == Success(l1)
    ensures l1 in TakenTo(journal, Min(|journal|, p + limit))
  {
    var q := Min(|journal|, p + limit);
    assert rows == journal[p..q];
    assert rows == [] ==> p == q;
    CommitMoves(setup, l, l1, journal, p, p, q, rows, units, now, grace);
    assert Max(p, q) == q;
  }

  /** The position that c full batches reach from position p. */
  function Reached(n: nat, p: nat, limit: nat, c: nat): nat
    decreases c
  {
    if c == 0 then p else Reached(n, Min(n, p + limit), limit, c - 1)
  }

  lemma ReachedNext(n: nat, p: nat, limit: nat, c: nat, p1: nat, c1: nat)
    requires (p1 == p && c1 == c) || (p1 == Min(n, p + limit) && c1 + 1 == c)
    ensures Reached(n, p, limit, c) == Reached(n, p1, limit, c1)
  {
  }

  lemma {:induction false} ReachedIs(n: nat, p: nat, limit: nat, c: nat)
    requires p <= n
    ensures Reached(n, p, limit, c) == Min(n, p + c * limit)
    decreases c
  {
    if c > 0 {
      ReachedIs(n, Min(n, p + limit), limit, c - 1);
      assert c * limit == limit + (c - 1) * limit;
    }
  }

  lemma FullUnfolds(setup: Setup, l: Ledger, ops: seq<Op>, journal: seq<Record>, limit: nat) returns (l1: Ledger)
    requires ValidSetup(setup) && ops != [] && FullSerial(setup, l, ops, journal, limit)
    ensures l1 == Apply(setup, l, ops[0]) && FullSerial(setup, l1, ops[1..], journal, limit)
    ensures ops[0].Ingest? ==> FullBatch(journal, l.cursor, ops[0].rows, limit)
    ensures Committed(setup, l, ops) == (if Committing(setup, l, ops[0]) then 1 else 0) + Committed(setup, l1, ops[1..])
    ensures Run(setup, l, ops) == Run(setup, l1, ops[1..])
  {
    l1 := Apply(setup, l, ops[0]);
  }

  lemma {:induction false} FullRun(setup: Setup, l: Ledger, ops: seq<Op>, journal: seq<Record>, limit: nat, p: nat,
                                   c: nat)
    returns (last: Ledger, q: nat)
    requires ValidSetup(setup) && Inv(setup, l) && SoundJournal(journal) && l in TakenTo(journal, p) && p <= |journal|
    requires FullSerial(setup, l, ops, journal, limit) && c == Committed(setup, l, ops)
    ensures last == Run(setup, l, ops) && q == Reached(|journal|, p, limit, c) && last in TakenTo(journal, q)
    decreases |ops|
  {
    if ops == [] {
      return l, p;
    }
    var l1 := FullUnfolds(setup, l, ops, journal, limit);
    var c1 := Committed(setup, l1, ops[1..]);
    var p1 := FullStep(setup, l, ops[0], l1, journal, limit, p);
    ReachedNext(|journal|, p, limit, c, p1, c1);
    last, q := FullRun(setup, l1, ops[1..], journal, limit, p1, c1);
  }

  /**
   * Progress: without overlap, c committed full batches, whatever fails or happens between them, take the
   * cursor to record min(n, c * limit) and make exactly the events before it known. So ceil(n / limit)
   * batches reach the end of the journal, and fewer do not.
   */
  lemma FullBatchesReachTheEnd(setup: Setup, ops: seq<Op>, journal: seq<Record>, limit: nat)
    requires ValidSetup(setup) && SoundJournal(journal) && FullSerial(setup, EMPTY, ops, journal, limit)
    ensures var l, reached := Run(setup, EMPTY, ops), Committed(setup, EMPTY, ops) * limit;
            && Position(journal, l.cursor) == Min(|journal|, reached)
            && Covered(l, journal, Min(|journal|, reached))
            && (Covered(l, journal, |journal|) && Position(journal, l.cursor) == |journal| <==> reached >= |journal|)
  {
    Beginning(setup, journal);
    assert Within(journal, None, 0);
    var c := Committed(setup, EMPTY, ops);
    var l, reached := FullRun(setup, EMPTY, ops, journal, limit, 0, c);
    ReachedIs(|journal|, 0, limit, c);
  }

  // ---------- overlapping collectors ----------

  lemma {:induction false} BatchFits(capacity: nat, events: map<Key, Row>, archived: set<Key>, rows: seq<Record>,
                                     now: Time, next: Time)
    requires forall r <- rows :: r.cursor.Some?
    requires |events| + |rows| <= capacity
    ensures AddEvents(capacity, events, archived, rows, now, next).Success?
    decreases |rows|
  {
    if rows != [] {
      var more := AddEvent(capacity, events, archived, rows[0], now, next).value;
      assert |more| <= |events| + 1;
      BatchFits(capacity, more, archived, rows[1..], now, next);
    }
  }

  /** The scope and the position of a ledger once a collector has committed. */
  ghost predicate At(l: Ledger, journal: seq<Record>, units: set<string>, p: nat, m: nat) {
    && l.kind == Some("service-control") && l.units == Some(units)
    && Position(journal, l.cursor) == p && p <= m && Resumes(journal, l.cursor, p) && Covered(l, journal, m)
  }

  lemma FirstBatch(setup: Setup, journal: seq<Record>, n: nat, units: set<string>, now: Time, grace: Time)
    requires SoundJournal(journal) && 1 <= n <= |journal| && n <= setup.capacity && n <= 2000 && ValidSetup(setup)
    ensures IngestBatch(setup, EMPTY, journal[..n], units, now, grace).Success?
    ensures At(AfterIngest(setup, EMPTY, journal[..n], units, now, grace), journal, units, n, n)
  {
    Beginning(setup, journal);
    BatchFits(setup.capacity, map[], {}, journal[..n], now, now + grace);
    assert EMPTY.archived.Keys == {};
    FromStart(journal, n);
    IngestMoves(setup, EMPTY, journal, 0, None, journal[..n], units, now, grace);
  }

  lemma FromStart(journal: seq<Record>, n: nat)
    requires SoundJournal(journal) && n <= |journal|
    ensures Offered(journal, None, journal[..n]) && Position(journal, None) == 0
  {
    PositionIs(journal, None, 0);
    assert journal[..n] == journal[0..n];
  }

  lemma SlowBatch(setup: Setup, l: Ledger, journal: seq<Record>, n: nat, k: nat, units: set<string>, now: Time,
                  grace: Time)
    requires SoundJournal(journal) && 1 <= k <= n <= |journal| && n <= 2000 && ValidSetup(setup)
    requires At(l, journal, units, n, n)
    ensures At(AfterIngest(setup, l, journal[..k], units, now, grace), journal, units, k, n)
  {
    AllKnown(l, journal, n, k);
    KnownBatch(setup.capacity, l.events, l.archived.Keys, journal[..k], now, now + grace);
    FromStart(journal, k);
    IngestMoves(setup, l, journal, n, None, journal[..k], units, now, grace);
  }

  lemma AllKnown(l: Ledger, journal: seq<Record>, n: nat, k: nat)
    requires Covered(l, journal, n) && k <= n
    ensures forall r <- journal[..k] :: r.event.Some? ==> r.event.value.Id() in Known(l)
  {
    forall r | r in journal[..k] && r.event.Some? ensures r.event.value.Id() in Known(l) {
      assert r in journal[..n];
      assert Journal(r.event.value.boot, r.event.value.cursor) in EventKeys(journal[..n]);
    }
  }

  lemma {:induction false} KnownBatch(capacity: nat, events: map<Key, Row>, archived: set<Key>, rows: seq<Record>,
                                      now: Time, next: Time)
    requires forall r <- rows :: r.cursor.Some? && (r.event.Some? ==> r.event.value.Id() in events.Keys + archived)
    ensures AddEvents(capacity, events, archived, rows, now, next) == Success(events)
    decreases |rows|
  {
    if rows != [] {
      KnownBatch(capacity, events, archived, rows[1..], now, next);
    }
  }

  /**
   * Two collectors read from the start of the journal, and the one that read less commits last. It
   * puts the cursor back to the end of its own batch while every event of the other stays known, so
   * the ledger is ahead of its cursor: it no longer knows exactly the events up to there.
   */
  lemma OverlapMovesTheCursorBack(setup: Setup, journal: seq<Record>, n: nat, k: nat, units: set<string>, now: Time,
                                  grace: Time)
    requires ValidSetup(setup) && SoundJournal(journal) && 1 <= k < n <= |journal| && n <= setup.capacity && n <= 2000
    requires EventKeys(journal[k..n]) != {}
    ensures var ops := Overlap(journal, n, k, units, now, grace);
            var l := Run(setup, EMPTY, ops);
            && Honest(setup, EMPTY, ops, journal, {None})
            && Position(journal, l.cursor) == k && Covered(l, journal, n) && !Covered(l, journal, k)
  {
    var a, b := Ingest(journal[..n], units, now, grace), Ingest(journal[..k], units, now, grace);
    var l1 := AfterIngest(setup, EMPTY, journal[..n], units, now, grace);
    var l2 := AfterIngest(setup, l1, journal[..k], units, now, grace);
    FirstBatch(setup, journal, n, units, now, grace);
    SlowBatch(setup, l1, journal, n, k, units, now, grace);
    CoveredEarlier(l2, journal, k, n);
    FromStart(journal, n);
    FromStart(journal, k);
    TwoSteps(setup, a, b, l1, l2, journal, Overlap(journal, n, k, units, now, grace));
  }

  /** In particular with any two events. */
  lemma TwoEventsSuffice(setup: Setup, e: Event, f: Event, units: set<string>, now: Time, grace: Time)
    requires ValidSetup(setup) && setup.capacity >= 2 && e.cursor != f.cursor
    ensures var journal := TwoEvents(e, f);
            var ops := Overlap(journal, 2, 1, units, now, grace);
            var l := Run(setup, EMPTY, ops);
            && SoundJournal(journal) && Honest(setup, EMPTY, ops, journal, {None})
            && l.cursor == Some(e.cursor) && e.Id() in Known(l) && f.Id() in Known(l)
  {
    var journal := TwoEvents(e, f);
    var l := Run(setup, EMPTY, Overlap(journal, 2, 1, units, now, grace));
    TwoEventKeys(e, f);
    OverlapMovesTheCursorBack(setup, journal, 2, 1, units, now, grace);
    assert Journal(e.boot, e.cursor) in EventKeys(journal[..2]) && Journal(f.boot, f.cursor) in EventKeys(journal[..2]);
  }

  function TwoEvents(e: Event, f: Event): seq<Record> {
    [Record(Some(e.cursor), Some(e)), Record(Some(f.cursor), Some(f))]
  }

  lemma TwoEventKeys(e: Event, f: Event)
    ensures EventKeys(TwoEvents(e, f)[1..2]) != {}
    ensures e.Id() in EventKeys(TwoEvents(e, f)[..2]) && f.Id() in EventKeys(TwoEvents(e, f)[..2])
  {
    var journal := TwoEvents(e, f);
    assert journal[1] in journal[1..2] && journal[0] in journal[..2] && journal[1] in journal[..2];
    assert f.Id() in EventKeys(journal[1..2]);
  }

  function Overlap(journal: seq<Record>, n: nat, k: nat, units: set<string>, now: Time, grace: Time): seq<Op>
    requires k <= n <= |journal|
  {
    [Ingest(journal[..n], units, now, grace), Ingest(journal[..k], units, now, grace)]
  }

  lemma TwoSteps(setup: Setup, a: Op, b: Op, l1: Ledger, l2: Ledger, journal: seq<Record>, ops: seq<Op>)
    requires ValidSetup(setup) && SoundJournal(journal) && l1 == Apply(setup, EMPTY, a) && l2 == Apply(setup, l1, b)
    requires a.Ingest? && b.Ingest? && Offered(journal, None, a.rows) && Offered(journal, None, b.rows) && ops == [a, b]
    ensures Run(setup, EMPTY, ops) == l2 && Honest(setup, EMPTY, ops, journal, {None})
  {
    assert None in {None} + {l1.cursor};
    LastStep(setup, l1, b, journal, {None} + {l1.cursor});
    assert ops[1..] == [b];
  }

  lemma LastStep(setup: Setup, l: Ledger, op: Op, journal: seq<Record>, held: set<Option<string>>)
    requires ValidSetup(setup) && (op.Ingest? ==> OfferedFrom(journal, held, op.rows))
    ensures Run(setup, l, [op]) == Apply(setup, l, op) && Honest(setup, l, [op], journal, held)
  {
    assert [op][1..] == [];
  }

  // ---------- two runs ----------

  /**
   * Two runs over one journal, in two deployments, agree on the payload of every event that both
   * hold; an event that only one knows lies between the furthest positions of the two.
   */
  lemma RunsAgree(setup: Setup, setup': Setup, a: seq<Op>, b: seq<Op>, journal: seq<Record>, boot: string, c: string)
    requires ValidSetup(setup) && ValidSetup(setup') && SoundJournal(journal)
    requires Honest(setup, EMPTY, a, journal, {None}) && Honest(setup', EMPTY, b, journal, {None})
    ensures var x, y, id := Run(setup, EMPTY, a), Run(setup', EMPTY, b), Journal(boot, c);
            var m, n := HighWater(setup, EMPTY, a, journal, 0), HighWater(setup', EMPTY, b, journal, 0);
            && m <= |journal| && n <= |journal|
            && (id in Known(x) && id !in Known(y) <==> n < m && id in EventKeys(journal[n..m]))
            && (id in x.events && id in y.events ==> x.events[id].payload == y.events[id].payload)
  {
    var x, y, id := Run(setup, EMPTY, a), Run(setup', EMPTY, b), Journal(boot, c);
    var m, n := HighWater(setup, EMPTY, a, journal, 0), HighWater(setup', EMPTY, b, journal, 0);
    CollectionIsExact(setup, a, journal);
    CollectionIsExact(setup', b, journal);
    LedgersDiffer(x, y, journal, m, n, boot, c);
    if id in x.events && id in y.events {
      LedgersAgree(x, y, journal, m, n, boot, c);
    }
  }

  lemma LedgersDiffer(x: Ledger, y: Ledger, journal: seq<Record>, m: nat, n: nat, boot: string, c: string)
    requires SoundJournal(journal) && Covered(x, journal, m) && Covered(y, journal, n)
    ensures var id := Journal(boot, c); id in Known(x) && id !in Known(y) <==> n < m && id in EventKeys(journal[n..m])
  {
    LaterKeys(journal, Min(m, n), m, Journal(boot, c));
    LaterKeys(journal, Min(m, n), n, Journal(boot, c));
  }

  function Min(a: nat, b: nat): nat {
    if a < b then a else b
  }

  /** The events of the first m records that are not among the first n are those in between. */
  lemma LaterKeys(journal: seq<Record>, n: nat, m: nat, id: Key)
    requires SoundJournal(journal) && n <= m <= |journal|
    ensures id in EventKeys(journal[..m]) && id !in EventKeys(journal[..n]) <==> id in EventKeys(journal[n..m])
    ensures id in EventKeys(journal[..n]) ==> id in EventKeys(journal[..m])
  {
    var before, between := journal[..n], journal[n..m];
    EventKeysConcat(before, between);
    assert journal[..m] == before + between;
    if id in EventKeys(between) {
      LaterIsNew(journal, n, m, id);
    }
  }

  lemma LedgersAgree(x: Ledger, y: Ledger, journal: seq<Record>, m: nat, n: nat, boot: string, c: string)
    requires SoundJournal(journal) && Covered(x, journal, m) && Covered(y, journal, n)
    requires Journal(boot, c) in x.events && Journal(boot, c) in y.events
    ensures x.events[Journal(boot, c)].payload == y.events[Journal(boot, c)].payload
  {
    var id := Journal(boot, c);
    assert id in EventKeys(journal[..m]);
    var r :| r in journal[..m] && r.event.Some? && r.event.value.Id() == id;
    var i :| 0 <= i < m && journal[i] == r;
    KeyIndex(journal, i, n);
  }
}
