/**
 * Draining the ledger: at one clock value and with an acknowledging sink, repeated
 * prepare / deliver / prune cycles export every changed row and archive every due one.
 */
module Drain {
  import opened Common
  import opened Attribution
  import opened AuditLedger
  import opened LedgerInvariant

  function Ack(setup: Setup, b: Bundle, receiptId: string, until: Time): SinkReply {
    SinkReply(Some(b), Text(setup.sink), Text("retained"), true, Text(receiptId), Some(until))
  }

  /** One export cycle of an operator whose sink acknowledges at once. */
  ghost function Cycle(setup: Setup, l: Ledger, now: Time, limit: int, receiptId: string, until: Time): Ledger
    requires ValidSetup(setup)
  {
    var (l1, prepared) := Prepare(setup, l, now, limit);
    match prepared
    case Success(Some(b)) => AfterPrune(setup, Deliver(setup, l1, b, Ack(setup, b, receiptId, until), now).0, b, now)
    case _ => l1
  }

  /** Successive ledgers of an operator who runs cycles and nothing else. */
  ghost predicate Drained(setup: Setup, ls: seq<Ledger>, now: Time, limit: int, receiptId: string, until: Time)
    requires ValidSetup(setup)
  {
    ls != [] && forall i :: 0 <= i < |ls| - 1 ==> ls[i + 1] == Cycle(setup, ls[i], now, limit, receiptId, until)
  }

  predicate Acknowledging(setup: Setup, now: Time, limit: int, receiptId: string, until: Time) {
    now >= 0.0 && 1 <= limit <= 1000 && Token(receiptId) && now + setup.retention <= until
  }

  /** No export is open, and one made at this very clock value holds no row that is still in the backlog. */
  ghost predicate Ready(setup: Setup, l: Ledger, now: Time) {
    && Inv(setup, l)
    && (forall b <- l.exports :: l.exports[b].payload.None?)
    && (forall b <- l.exports :: b.created < now || Cleared(setup, l, b, now))
  }

  ghost predicate Cleared(setup: Setup, l: Ledger, b: Bundle, now: Time) {
    forall r <- b.events :: !(r.id in Backlog(setup, l, now) && l.events[r.id] == r)
  }

  function Ids(rows: seq<Row>): set<Key> {
    set r | r in rows :: r.id
  }

  // ---------- exported versions ----------

  lemma {:induction false} SavedVersions(versions: map<Key, Row>, rows: seq<Row>)
    requires DistinctIds(rows)
    ensures var saved := SaveVersions(versions, rows);
            && saved.Keys == versions.Keys + Ids(rows)
            && (forall r <- rows :: saved[r.id] == r)
            && (forall id <- versions :: id !in Ids(rows) ==> saved[id] == versions[id])
    decreases |rows|
  {
    if rows == [] {
      assert Ids(rows) == {};
    } else {
      var rest := rows[1..];
      assert rows == [rows[0]] + rest;
      assert DistinctIds(rest);
      SavedVersions(versions[rows[0].id := rows[0]], rest);
      assert Ids(rows) == {rows[0].id} + Ids(rest);
      HeadIdIsNew(rows);
    }
  }

  lemma HeadIdIsNew(rows: seq<Row>)
    requires DistinctIds(rows) && rows != []
    ensures rows[0].id !in Ids(rows[1..])
  {
    forall r | r in rows[1..] ensures r.id != rows[0].id {
      var i :| 0 <= i < |rows[1..]| && rows[1..][i] == r;
      assert rows[i + 1] == r;
    }
  }

  lemma {:induction false} DistinctIdsCount(rows: seq<Row>)
    requires DistinctIds(rows)
    ensures |Ids(rows)| == |rows|
    decreases |rows|
  {
    if rows == [] {
      assert Ids(rows) == {};
    } else {
      assert rows == [rows[0]] + rows[1..];
      assert Ids(rows) == {rows[0].id} + Ids(rows[1..]);
      HeadIdIsNew(rows);
      DistinctIdsCount(rows[1..]);
    }
  }

  // ---------- one cycle ----------

  /** Acknowledging then pruning a snapshot of current rows, in closed form. */
  ghost function Finished(setup: Setup, l: Ledger, b: Bundle, receipt: Retention, now: Time): Ledger {
    Archive(l.(versions := SaveVersions(l.versions, b.events)), Doomed(setup, l, b.events, now), b)
      .(exports := l.exports[b := Export(None, Some(receipt), b.created)])
  }

  lemma NewBundle(setup: Setup, l: Ledger, now: Time, limit: int)
    requires ValidSetup(setup) && Ready(setup, l, now) && 1 <= limit && Backlog(setup, l, now) != {}
    ensures PrepareBundle(setup, l, now, limit) !in l.exports
  {
    var b := PrepareBundle(setup, l, now, limit);
    SnapshotRows(setup, l, now, limit);
    assert b.events[0] in b.events;
  }

  lemma NothingOpen(l: Ledger)
    requires forall b <- l.exports :: l.exports[b].payload.None?
    ensures OpenExports(l) == {}
  {
  }

  lemma PrepareSucceeds(setup: Setup, l: Ledger, now: Time, limit: int)
    requires ValidSetup(setup) && Ready(setup, l, now) && now >= 0.0 && 1 <= limit <= 1000
             && Backlog(setup, l, now) != {}
    ensures var b := PrepareBundle(setup, l, now, limit);
            Prepare(setup, l, now, limit) ==
            (l.(exports := l.exports[b := Export(Some(b), None, now)]), Success(Some(b)))
  {
    NewBundle(setup, l, now, limit);
    NothingOpen(l);
  }

  lemma DeliverSucceeds(setup: Setup, l: Ledger, b: Bundle, now: Time, receiptId: string, until: Time)
    requires b in l.exports && l.exports[b] == Export(Some(b), None, now)
    requires now >= 0.0 && Token(receiptId) && now + setup.retention <= until && setup.retention >= 0.0
    ensures Deliver(setup, l, b, Ack(setup, b, receiptId, until), now).0
         == Acknowledge(l, b, Retention(b, setup.sink, receiptId, until))
  {
  }

  lemma PruneSucceeds(setup: Setup, l: Ledger, b: Bundle, now: Time, receipt: Retention)
    requires Keyed(l.events) && l.events.Keys !! l.archived.Keys && now >= 0.0
    requires b in l.exports && l.exports[b] == Export(Some(b), Some(receipt), now)
             && now + setup.retention <= receipt.until
    ensures AfterPrune(setup, l, b, now)
         == Archive(l, Doomed(setup, l, b.events, now), b).(exports := l.exports[b := Export(None, Some(receipt), now)])
  {
    PruneRowsInBulk(setup, l, b, b.events, now);
  }

  /** A cycle over a non-empty backlog archives or versions exactly the rows it snapshot. */
  lemma CycleInBulk(setup: Setup, l: Ledger, now: Time, limit: int, receiptId: string, until: Time)
    requires ValidSetup(setup) && Ready(setup, l, now) && Acknowledging(setup, now, limit, receiptId, until)
    requires Backlog(setup, l, now) != {}
    ensures var b := PrepareBundle(setup, l, now, limit);
            Cycle(setup, l, now, limit, receiptId, until)
            == Finished(setup, l, b, Retention(b, setup.sink, receiptId, until), now)
  {
    var b := PrepareBundle(setup, l, now, limit);
    var receipt := Retention(b, setup.sink, receiptId, until);
    PrepareSucceeds(setup, l, now, limit);
    var l1 := l.(exports := l.exports[b := Export(Some(b), None, now)]);
    DeliverSucceeds(setup, l1, b, now, receiptId, until);
    AcknowledgeThenPrune(setup, l, b, receipt, now);
  }

  lemma AcknowledgeThenPrune(setup: Setup, l: Ledger, b: Bundle, receipt: Retention, now: Time)
    requires Keyed(l.events) && l.events.Keys !! l.archived.Keys && now >= 0.0
    requires b.created == now && now + setup.retention <= receipt.until
    ensures var l1 := l.(exports := l.exports[b := Export(Some(b), None, now)]);
            AfterPrune(setup, Acknowledge(l1, b, receipt), b, now) == Finished(setup, l, b, receipt, now)
  {
    var l1 := l.(exports := l.exports[b := Export(Some(b), None, now)]);
    var l2 := Acknowledge(l1, b, receipt);
    assert l2.exports[b] == Export(Some(b), Some(receipt), now);
    PruneSucceeds(setup, l2, b, now, receipt);
    assert Doomed(setup, l2, b.events, now) == Doomed(setup, l, b.events, now);
    assert l2.exports[b := Export(None, Some(receipt), now)] == l.exports[b := Export(None, Some(receipt), now)];
  }

  /** A row after the cycle: snapshot rows are gone or have their version, the others are as before. */
  ghost predicate RowFinished(setup: Setup, l: Ledger, l1: Ledger, b: Bundle, now: Time, id: Key) {
    && (id in l1.events <==> id in l.events && !(id in Ids(b.events) && DueForRetention(setup, l.events[id], now)))
    && (id in l1.events ==> l1.events[id] == l.events[id])
    && (id in l1.events && id in Ids(b.events) ==> id in l1.versions && l1.versions[id] == l.events[id])
    && (id in l1.events && id !in Ids(b.events) ==>
          (id in l1.versions <==> id in l.versions) && (id in l.versions ==> l1.versions[id] == l.versions[id]))
  }

  lemma FinishedRow(setup: Setup, l: Ledger, b: Bundle, receipt: Retention, now: Time, id: Key)
    requires DistinctIds(b.events) && id in l.events
    requires Keyed(l.events) && forall r <- b.events :: r.id in l.events && l.events[r.id] == r
    ensures RowFinished(setup, l, Finished(setup, l, b, receipt, now), b, now, id)
  {
    SavedVersions(l.versions, b.events);
    var l1, gone := Finished(setup, l, b, receipt, now), Doomed(setup, l, b.events, now);
    assert l1.events == l.events - gone && l1.versions == SaveVersions(l.versions, b.events) - gone;
    assert id in Ids(b.events) <==> l.events[id] in b.events;
  }

  lemma FinishedNeed(setup: Setup, l: Ledger, l1: Ledger, b: Bundle, now: Time, id: Key)
    requires id in l.events && RowFinished(setup, l, l1, b, now, id)
    ensures id in Backlog(setup, l1, now) <==> id in Backlog(setup, l, now) && id !in Ids(b.events)
  {
  }

  lemma FinishedBacklog(setup: Setup, l: Ledger, b: Bundle, receipt: Retention, now: Time)
    requires Keyed(l.events) && DistinctIds(b.events)
    requires forall r <- b.events :: r.id in Backlog(setup, l, now) && l.events[r.id] == r
    ensures var l1 := Finished(setup, l, b, receipt, now);
            && Backlog(setup, l1, now) == Backlog(setup, l, now) - Ids(b.events)
            && Shrunk(setup, l, l1, now)
  {
    var l1 := Finished(setup, l, b, receipt, now);
    assert l1.events.Keys <= l.events.Keys;
    forall id | id in l.events
      ensures RowFinished(setup, l, l1, b, now, id)
      ensures id in Backlog(setup, l1, now) <==> id in Backlog(setup, l, now) && id !in Ids(b.events)
    {
      FinishedRow(setup, l, b, receipt, now, id);
      FinishedNeed(setup, l, l1, b, now, id);
    }
  }

  lemma CycleKeepsInv(setup: Setup, l: Ledger, now: Time, limit: int, receiptId: string, until: Time)
    requires ValidSetup(setup) && Ready(setup, l, now) && Acknowledging(setup, now, limit, receiptId, until)
    ensures Inv(setup, Cycle(setup, l, now, limit, receiptId, until))
  {
    ExportKeeps(setup, l, now, limit);
    if Backlog(setup, l, now) != {} {
      var b := PrepareBundle(setup, l, now, limit);
      PrepareSucceeds(setup, l, now, limit);
      var l1 := Prepare(setup, l, now, limit).0;
      var receipt := Retention(b, setup.sink, receiptId, until);
      DeliverSucceeds(setup, l1, b, now, receiptId, until);
      ReceiveKeeps(setup, l1, b, receipt, now);
      RemoveKeeps(setup, AfterReceive(setup, l1, b, receipt, now), b, now);
    } else {
      NothingOpen(l);
    }
  }

  lemma ClearedStays(setup: Setup, l: Ledger, l1: Ledger, b: Bundle, now: Time)
    requires Cleared(setup, l, b, now)
    requires Backlog(setup, l1, now) <= Backlog(setup, l, now)
    requires forall id <- l1.events :: id in l.events && l1.events[id] == l.events[id]
    ensures Cleared(setup, l1, b, now)
  {
  }

  /** Progress: a cycle removes the snapshot rows, and nothing else, from the backlog. */
  lemma CycleProgress(setup: Setup, l: Ledger, now: Time, limit: int, receiptId: string, until: Time)
    requires ValidSetup(setup) && Ready(setup, l, now) && Acknowledging(setup, now, limit, receiptId, until)
    ensures Progressed(setup, l, Cycle(setup, l, now, limit, receiptId, until), now, limit)
  {
    CycleKeepsInv(setup, l, now, limit, receiptId, until);
    if Backlog(setup, l, now) == {} {
      NothingOpen(l);
    } else {
      var b := PrepareBundle(setup, l, now, limit);
      var receipt := Retention(b, setup.sink, receiptId, until);
      CycleInBulk(setup, l, now, limit, receiptId, until);
      SnapshotRows(setup, l, now, limit);
      FinishedBacklog(setup, l, b, receipt, now);
      DistinctIdsCount(b.events);
      ReadyAgain(setup, l, b, receipt, now);
    }
  }

  lemma AllCleared(setup: Setup, l: Ledger, l1: Ledger, b: Bundle, now: Time)
    requires Ready(setup, l, now) && Backlog(setup, l1, now) <= Backlog(setup, l, now) && Cleared(setup, l1, b, now)
    requires forall id <- l1.events :: id in l.events && l1.events[id] == l.events[id]
    requires b in l1.exports && l1.exports[b].payload.None? && forall a <- l1.exports ::
             a != b ==> a in l.exports && l1.exports[a] == l.exports[a]
    ensures forall a <- l1.exports :: l1.exports[a].payload.None? && (a.created < now || Cleared(setup, l1, a, now))
  {
    forall a | a in l1.exports ensures l1.exports[a].payload.None? && (a.created < now || Cleared(setup, l1, a, now)) {
      if a != b && a.created >= now {
        ClearedStays(setup, l, l1, a, now);
      }
    }
  }

  lemma ReadyAgain(setup: Setup, l: Ledger, b: Bundle, receipt: Retention, now: Time)
    requires Ready(setup, l, now) && Keyed(l.events) && DistinctIds(b.events)
    requires forall r <- b.events :: r.id in Backlog(setup, l, now) && l.events[r.id] == r
    requires Inv(setup, Finished(setup, l, b, receipt, now))
    ensures Ready(setup, Finished(setup, l, b, receipt, now), now)
  {
    var l1 := Finished(setup, l, b, receipt, now);
    FinishedBacklog(setup, l, b, receipt, now);
    assert Cleared(setup, l1, b, now) by {
      assert forall r <- b.events :: r.id in Ids(b.events);
    }
    assert l1.exports == l.exports[b := Export(None, Some(receipt), b.created)];
    AllCleared(setup, l, l1, b, now);
  }

  // ---------- the drain ----------

  function Less(n: nat, k: int): nat
    requires k >= 0
  {
    if n < k then 0 else n - k
  }

  /** The rest of a ledger after some cycles: rows keep their values, and only due rows are gone. */
  ghost predicate Shrunk(setup: Setup, l: Ledger, l1: Ledger, now: Time) {
    && (forall id <- l1.events :: id in l.events && l1.events[id] == l.events[id])
    && (forall id <- l.events :: id !in l1.events ==> DueForRetention(setup, l.events[id], now))
  }

  lemma ShrunkTransitive(setup: Setup, a: Ledger, b: Ledger, c: Ledger, now: Time)
    requires Shrunk(setup, a, b, now) && Shrunk(setup, b, c, now)
    ensures Shrunk(setup, a, c, now)
  {
  }

  /** A ledger that is ready again with n rows less in its backlog. */
  ghost predicate Progressed(setup: Setup, l: Ledger, l1: Ledger, now: Time, n: int) {
    && n >= 0
    && Ready(setup, l1, now)
    && |Backlog(setup, l1, now)| == Less(|Backlog(setup, l, now)|, n)
    && Shrunk(setup, l, l1, now)
  }

  lemma ProgressedTransitive(setup: Setup, a: Ledger, b: Ledger, c: Ledger, now: Time, m: int, n: int)
    requires Progressed(setup, a, b, now, m) && Progressed(setup, b, c, now, n)
    ensures Progressed(setup, a, c, now, m + n)
  {
    ShrunkTransitive(setup, a, b, c, now);
  }

  lemma {:induction false} Chain(setup: Setup, ls: seq<Ledger>, now: Time, limit: nat, k: nat)
    requires k < |ls| && Ready(setup, ls[0], now)
    requires forall i ::
             0 <= i < |ls| - 1 && Ready(setup, ls[i], now) ==> Progressed(setup, ls[i], ls[i + 1], now, limit)
    ensures Progressed(setup, ls[0], ls[k], now, k * limit)
  {
    if k > 0 {
      Chain(setup, ls, now, limit, k - 1);
      ProgressedTransitive(setup, ls[0], ls[k - 1], ls[k], now, (k - 1) * limit, limit);
      assert k * limit == (k - 1) * limit + limit;
    }
  }

  lemma DrainProgress(setup: Setup, ls: seq<Ledger>, now: Time, limit: int, receiptId: string, until: Time, k: nat)
    requires ValidSetup(setup) && Acknowledging(setup, now, limit, receiptId, until)
    requires Drained(setup, ls, now, limit, receiptId, until) && Ready(setup, ls[0], now) && k < |ls|
    ensures Progressed(setup, ls[0], ls[k], now, k * limit)
  {
    forall i | 0 <= i < |ls| - 1 && Ready(setup, ls[i], now) ensures Progressed(setup, ls[i], ls[i + 1], now, limit) {
      CycleProgress(setup, ls[i], now, limit, receiptId, until);
    }
    Chain(setup, ls, now, limit, k);
  }

  /**
   * The drain terminates: after ceil(n / limit) cycles `prepare` has nothing left, the current
   * version of every remaining row has been acknowledged, and the rows that left the table are
   * exactly those that were settled and past retention.
   */
  lemma DrainTerminates(setup: Setup, ls: seq<Ledger>, now: Time, limit: int, receiptId: string, until: Time, k: nat)
    requires ValidSetup(setup) && Acknowledging(setup, now, limit, receiptId, until)
    requires Drained(setup, ls, now, limit, receiptId, until) && Inv(setup, ls[0])
    requires OpenExports(ls[0]) == {} && forall b <- ls[0].exports :: b.created < now
    requires k < |ls| && k * limit >= |Backlog(setup, ls[0], now)|
    ensures Prepare(setup, ls[k], now, limit) == (ls[k], Success(None))
    ensures forall id <- ls[k].events :: id in ls[k].versions && ls[k].versions[id] == ls[k].events[id]
    ensures ls[k].events == map id | id in ls[0].events && !DueForRetention(setup, ls[0].events[id], now) ::
            ls[0].events[id]
  {
    NoneOpen(ls[0]);
    DrainProgress(setup, ls, now, limit, receiptId, until, k);
    EmptyBacklog(setup, ls[k], now, limit);
  }

  lemma EmptyBacklog(setup: Setup, l: Ledger, now: Time, limit: int)
    requires ValidSetup(setup) && Ready(setup, l, now) && now >= 0.0 && 1 <= limit <= 1000
             && |Backlog(setup, l, now)| == 0
    ensures Prepare(setup, l, now, limit) == (l, Success(None))
    ensures forall id <- l.events ::
              id in l.versions && l.versions[id] == l.events[id] && !DueForRetention(setup, l.events[id], now)
  {
    NothingOpen(l);
    forall id | id in l.events ensures !NeedsExport(setup, l, id, now) {
      assert id !in Backlog(setup, l, now);
    }
  }

  /** And it needs that many: after fewer cycles `prepare` still finds rows to export. */
  lemma DrainNeedsItsCycles(setup: Setup, ls: seq<Ledger>, now: Time, limit: int, receiptId: string, until: Time,
                            k: nat)
    requires ValidSetup(setup) && Acknowledging(setup, now, limit, receiptId, until)
    requires Drained(setup, ls, now, limit, receiptId, until) && Inv(setup, ls[0])
    requires OpenExports(ls[0]) == {} && forall b <- ls[0].exports :: b.created < now
    requires k < |ls| && k * limit < |Backlog(setup, ls[0], now)|
    ensures Prepare(setup, ls[k], now, limit).1 == Success(Some(PrepareBundle(setup, ls[k], now, limit)))
  {
    NoneOpen(ls[0]);
    DrainProgress(setup, ls, now, limit, receiptId, until, k);
    PrepareSucceeds(setup, ls[k], now, limit);
  }

  // ---------- why the clock must have moved ----------

  /** An export made at this clock value, of the same store and cursor, with the rows that come first in the backlog. */
  ghost predicate MadeBefore(setup: Setup, l: Ledger, now: Time, limit: nat, b: Bundle)
    requires ValidSetup(setup)
  {
    && b in l.exports && b.created == now
    && b.sink == setup.sink && b.kind == l.kind && b.units == l.units && b.cursor == l.cursor
    && b.events == RowsOf(l.events, FirstKeys(setup.rank, l.events, Backlog(setup, l, now), limit))
  }

  /**
   * `prepare` raises on its primary key exactly if it would bundle, with no export open, the very rows
   * that an earlier export of the same clock value and cursor holds.
   */
  lemma SameClockMayCollide(setup: Setup, l: Ledger, now: Time, limit: int)
    requires ValidSetup(setup)
    ensures Prepare(setup, l, now, limit).1 == Failure(DuplicateExport) <==>
              && now >= 0.0 && 1 <= limit <= 1000 && OpenExports(l) == {} && Backlog(setup, l, now) != {}
              && exists b :: MadeBefore(setup, l, now, limit, b)
  {
    if now >= 0.0 && 1 <= limit <= 1000 {
      var made := PrepareBundle(setup, l, now, limit);
      assert made in l.exports ==> MadeBefore(setup, l, now, limit, made);
      forall b | MadeBefore(setup, l, now, limit, b) ensures b == made {
      }
    }
  }

  /** A caller whose clock has moved since the last export is never refused that way, and only for its arguments. */
  lemma MovedClockNeverCollides(setup: Setup, l: Ledger, now: Time, limit: int)
    requires ValidSetup(setup) && forall b <- l.exports :: b.created < now
    ensures Prepare(setup, l, now, limit).1.Success? <==> now >= 0.0 && 1 <= limit <= 1000
  {
    SameClockMayCollide(setup, l, now, limit);
    if Prepare(setup, l, now, limit).1.Failure? {
      OnlyThreeFailures(setup, l, now, limit);
    }
  }

  lemma OnlyThreeFailures(setup: Setup, l: Ledger, now: Time, limit: int)
    requires ValidSetup(setup) && Prepare(setup, l, now, limit).1.Failure?
    ensures Prepare(setup, l, now, limit).1.error
            == (if now < 0.0 then BadTime else if !(1 <= limit <= 1000) then BadLimit else DuplicateExport)
  {
  }

  lemma OneRowBundle(setup: Setup, l: Ledger, now: Time, limit: int, k: Key)
    requires ValidSetup(setup) && Keyed(l.events) && limit >= 1 && Backlog(setup, l, now) == {k}
    ensures PrepareBundle(setup, l, now, limit) == Snapshot(setup, l, now, [l.events[k]])
  {
    SnapshotRows(setup, l, now, limit);
    var b := PrepareBundle(setup, l, now, limit);
    assert |b.events| == 1 && b.events[0] in b.events;
    assert b.events == [l.events[k]];
  }

  /** A ledger of one recent, unsettled, not yet exported obligation. */
  ghost predicate OneRecentRow(setup: Setup, l: Ledger, now: Time, k: Key) {
    && l.events.Keys == {k} && l.kind == Some("service-control")
    && !l.events[k].delivered && l.events[k].created > now - setup.retention
    && NeedsExport(setup, l, k, now)
  }

  /** What a cycle leaves of a ledger with one recent row: the row itself, and its exported version. */
  ghost predicate ExportedOne(setup: Setup, l: Ledger, l1: Ledger, now: Time, k: Key) {
    && k in l.events && l1.events == l.events && k in l1.versions && l1.versions[k] == l.events[k]
    && l1.exports.Keys == l.exports.Keys + {Snapshot(setup, l, now, [l.events[k]])}
    && l1.kind == l.kind && l1.units == l.units && l1.cursor == l.cursor
  }

  lemma FinishedOfOne(setup: Setup, l: Ledger, b: Bundle, receipt: Retention, now: Time, k: Key)
    requires Keyed(l.events) && OneRecentRow(setup, l, now, k) && b == Snapshot(setup, l, now, [l.events[k]])
    ensures ExportedOne(setup, l, Finished(setup, l, b, receipt, now), now, k)
  {
    assert Doomed(setup, l, b.events, now) == {};
    assert l.events[k].id == k;
    SavedVersions(l.versions, b.events);
    assert l.events[k] in b.events;
    ArchiveNone(l.(versions := SaveVersions(l.versions, b.events)), b);
  }

  lemma CycleOfOne(setup: Setup, l: Ledger, now: Time, limit: int, receiptId: string, until: Time, k: Key)
    requires ValidSetup(setup) && Ready(setup, l, now) && Acknowledging(setup, now, limit, receiptId, until)
    requires OneRecentRow(setup, l, now, k)
    ensures ExportedOne(setup, l, Cycle(setup, l, now, limit, receiptId, until), now, k)
  {
    var b := Snapshot(setup, l, now, [l.events[k]]);
    OneRowBacklog(setup, l, now, k);
    OneRowBundle(setup, l, now, limit, k);
    CycleInBulk(setup, l, now, limit, receiptId, until);
    FinishedOfOne(setup, l, b, Retention(b, setup.sink, receiptId, until), now, k);
  }

  lemma OneRowBacklog(setup: Setup, l: Ledger, now: Time, k: Key)
    requires OneRecentRow(setup, l, now, k)
    ensures Backlog(setup, l, now) == {k}
  {
  }

  /** Reconciling a one-row ledger only moves the attribution of that row. */
  lemma ReconcileOfOne(setup: Setup, l: Ledger, receipts: seq<JobReceipt>, k: Key)
    requires l.events.Keys == {k} && l.kind == Some("service-control") && |receipts| <= 10000
    ensures AfterReconcile(l, receipts)
            == l.(events := map[k := l.events[k].(attribution := AttributedPayload(l.events[k].payload, receipts))])
  {
    match ReconcileAll(l, receipts)
    case Success(l1) =>
      ReconcileCommits(l, l1, receipts);
      assert l1.events == map[k := l.events[k].(attribution := AttributedPayload(l.events[k].payload, receipts))];
  }

  lemma StillReady(setup: Setup, l: Ledger, l1: Ledger, now: Time)
    requires Ready(setup, l, now) && Inv(setup, l1) && l1.exports == l.exports
    requires forall b <- l.exports :: b.created < now || Cleared(setup, l1, b, now)
    ensures Ready(setup, l1, now)
  {
  }

  /**
   * It happens: an obligation exported at `now`, then attributed and exported at the same `now`,
   * then left unattributed again, makes the next `prepare` at that clock value fail. The collision
   * needs an exporter that runs faster than its clock ticks.
   */
  lemma ChangedBackCollides(setup: Setup, l: Ledger, a: Ledger, l1: Ledger, c: Ledger, l2: Ledger,
                            now: Time, limit: int, receiptId: string, until: Time, k: Key, receipts: seq<JobReceipt>)
    requires ValidSetup(setup) && Inv(setup, l) && Acknowledging(setup, now, limit, receiptId, until)
    requires OpenExports(l) == {} && forall b <- l.exports :: b.created < now
    requires OneRecentRow(setup, l, now, k) && l.events[k].attribution.None?
    requires |receipts| <= 10000 && AttributedPayload(l.events[k].payload, receipts).Some?
    requires a == Cycle(setup, l, now, limit, receiptId, until) && l1 == AfterReconcile(a, receipts)
    requires c == Cycle(setup, l1, now, limit, receiptId, until) && l2 == AfterReconcile(c, [])
    ensures Prepare(setup, l2, now, limit).1 == Failure(DuplicateExport)
  {
    FirstHalf(setup, l, a, l1, now, limit, receiptId, until, k, receipts);
    SecondCycle(setup, l, a, l1, now, limit, receiptId, until, k);
    SecondHalf(setup, l, l1, c, l2, now, k);
    LastPrepare(setup, l, l2, now, limit, k);
  }

  /** l1 is a with the attribution of its only row moved. */
  ghost predicate Reattributed(setup: Setup, a: Ledger, l1: Ledger, k: Key) {
    && Inv(setup, l1) && a.events.Keys == {k} && l1.events.Keys == {k} && l1 == a.(events := l1.events)
    && l1.events[k] == a.events[k].(attribution := l1.events[k].attribution)
  }

  lemma ReconcileReattributes(setup: Setup, a: Ledger, receipts: seq<JobReceipt>, k: Key)
    requires Inv(setup, a) && a.events.Keys == {k} && a.kind == Some("service-control") && |receipts| <= 10000
    ensures Reattributed(setup, a, AfterReconcile(a, receipts), k)
    ensures AfterReconcile(a, receipts).events[k].attribution == AttributedPayload(a.events[k].payload, receipts)
  {
    ReconcileKeeps(setup, a, receipts);
    ReconcileOfOne(setup, a, receipts, k);
  }

  lemma FirstHalf(setup: Setup, l: Ledger, a: Ledger, l1: Ledger, now: Time, limit: int, receiptId: string, until: Time,
                  k: Key, receipts: seq<JobReceipt>)
    requires ValidSetup(setup) && Inv(setup, l) && Acknowledging(setup, now, limit, receiptId, until)
    requires OpenExports(l) == {} && forall b <- l.exports :: b.created < now
    requires OneRecentRow(setup, l, now, k) && l.events[k].attribution.None?
    requires |receipts| <= 10000 && AttributedPayload(l.events[k].payload, receipts).Some?
    requires a == Cycle(setup, l, now, limit, receiptId, until) && l1 == AfterReconcile(a, receipts)
    ensures Ready(setup, a, now) && ExportedOne(setup, l, a, now, k)
    ensures Reattributed(setup, a, l1, k) && l1.events[k].attribution.Some?
  {
    NoneOpen(l);
    CycleOfOne(setup, l, now, limit, receiptId, until, k);
    CycleProgress(setup, l, now, limit, receiptId, until);
    ReconcileReattributes(setup, a, receipts, k);
  }

  lemma SecondHalf(setup: Setup, l: Ledger, l1: Ledger, c: Ledger, l2: Ledger, now: Time, k: Key)
    requires OneRecentRow(setup, l, now, k) && l.events[k].attribution.None?
    requires l1.events.Keys == {k} && l1.events[k] == l.events[k].(attribution := l1.events[k].attribution)
    requires l1.kind == l.kind && ExportedOne(setup, l1, c, now, k) && Inv(setup, c) && l2 == AfterReconcile(c, [])
    ensures Reattributed(setup, c, l2, k) && l2.events[k] == l.events[k]
  {
    ReconcileReattributes(setup, c, [], k);
    NothingClaims(l1.events[k].payload);
  }

  lemma NothingClaims(payload: Payload)
    ensures AttributedPayload(payload, []) == None
  {
    if payload.Service? {
      assert Claimants(payload.event, []) == {};
    }
  }

  lemma SecondCycle(setup: Setup, l: Ledger, a: Ledger, l1: Ledger, now: Time, limit: int, receiptId: string,
                    until: Time, k: Key)
    requires ValidSetup(setup) && Acknowledging(setup, now, limit, receiptId, until)
    requires OneRecentRow(setup, l, now, k) && Ready(setup, a, now)
    requires ExportedOne(setup, l, a, now, k) && forall b <- l.exports :: b.created < now
    requires Reattributed(setup, a, l1, k) && l1.events[k] != l.events[k]
    ensures Ready(setup, Cycle(setup, l1, now, limit, receiptId, until), now)
    ensures ExportedOne(setup, l1, Cycle(setup, l1, now, limit, receiptId, until), now, k)
    ensures Snapshot(setup, l, now, [l.events[k]]) in l1.exports
  {
    ReadyForSecond(setup, l, a, l1, now, k);
    CycleOfOne(setup, l1, now, limit, receiptId, until, k);
    CycleProgress(setup, l1, now, limit, receiptId, until);
  }

  lemma ReadyForSecond(setup: Setup, l: Ledger, a: Ledger, l1: Ledger, now: Time, k: Key)
    requires OneRecentRow(setup, l, now, k) && Ready(setup, a, now)
    requires ExportedOne(setup, l, a, now, k) && forall b <- l.exports :: b.created < now
    requires Reattributed(setup, a, l1, k) && l1.events[k] != l.events[k]
    ensures Ready(setup, l1, now) && OneRecentRow(setup, l1, now, k)
    ensures Snapshot(setup, l, now, [l.events[k]]) in l1.exports
  {
    assert Cleared(setup, l1, Snapshot(setup, l, now, [l.events[k]]), now);
    StillReady(setup, a, l1, now);
  }

  lemma LastPrepare(setup: Setup, l: Ledger, l2: Ledger, now: Time, limit: int, k: Key)
    requires ValidSetup(setup) && now >= 0.0 && 1 <= limit <= 1000
    requires OneRecentRow(setup, l, now, k) && Keyed(l2.events) && l2.events.Keys == {k} && l2.events[k] == l.events[k]
    requires k in l2.versions && l2.versions[k] != l.events[k]
    requires forall b <- l2.exports :: l2.exports[b].payload.None?
    requires l2.kind == l.kind && l2.units == l.units && l2.cursor == l.cursor
    requires Snapshot(setup, l, now, [l.events[k]]) in l2.exports
    ensures Prepare(setup, l2, now, limit).1 == Failure(DuplicateExport)
  {
    OneRowBacklog(setup, l2, now, k);
    OneRowBundle(setup, l2, now, limit, k);
    NothingOpen(l2);
  }

  // ---------- a collision ----------

  const BOOT := "00000000000000000000000000000000"

  /** A started unit, and the receipt of the operation that started it. */
  function Started(): Event {
    Event(BOOT, "c", "7", "u.service", "start", 0, "done")
  }

  function StartReceipt(): JobReceipt {
    JobReceipt(Text(BOOT), Text("7"), Text("u.service"), Text("start"), Text("accepted"), Text("o"), Text("p"),
        Text("r"), Text("s"))
  }

  /** A new ledger once one batch with that event was ingested. */
  ghost function Collected(setup: Setup, now: Time): Ledger {
    AfterIngest(setup, EMPTY, [Record(Some("c"), Some(Started()))], {"u.service"}, now, 0.0)
  }

  lemma CollectedRow(setup: Setup, now: Time)
    requires ValidSetup(setup) && setup.capacity > 0
    ensures var l := Collected(setup, now);
            && Inv(setup, l) && OneRecentRow(setup, l, now, Started().Id()) && l.exports == map[]
            && l.events[Started().Id()].payload == Service(Started()) && l.events[Started().Id()].attribution.None?
  {
    var rows := [Record(Some("c"), Some(Started()))];
    IngestKeeps(setup, EMPTY, rows, {"u.service"}, now, 0.0);
    assert rows[1..] == [];
    var row := Obligation(Service(Started()), now, now + 0.0);
    assert AddEvent(setup.capacity, map[], {}, rows[0], now, now + 0.0) == Success(map[][Started().Id() := row]);
    assert AddEvents(setup.capacity, map[][Started().Id() := row], {}, rows[1..], now, now + 0.0)
           == Success(map[][Started().Id() := row]);
    assert EMPTY.archived.Keys == {};
  }

  lemma StartIsAttributed()
    ensures AttributedPayload(Service(Started()), [StartReceipt()]).Some?
  {
    var e, r := Started(), StartReceipt();
    assert Qualifies(e, r);
    assert Claimants(e, [r]) == {IdentityOf(r)};
  }

  /** The exports and reconciliations of the family above, from one ledger. */
  ghost function Twice(setup: Setup, l: Ledger, now: Time, limit: int, receiptId: string, until: Time,
                       receipts: seq<JobReceipt>): Ledger
    requires ValidSetup(setup)
  {
    AfterReconcile(Cycle(setup, AfterReconcile(Cycle(setup, l, now, limit, receiptId, until), receipts), now, limit,
        receiptId, until), [])
  }

  lemma TwiceCollides(setup: Setup, l: Ledger, now: Time, limit: int, receiptId: string, until: Time, k: Key,
                      receipts: seq<JobReceipt>)
    requires ValidSetup(setup) && Inv(setup, l) && Acknowledging(setup, now, limit, receiptId, until)
             && l.exports == map[]
    requires OneRecentRow(setup, l, now, k) && l.events[k].attribution.None?
    requires |receipts| <= 10000 && AttributedPayload(l.events[k].payload, receipts).Some?
    ensures Prepare(setup, Twice(setup, l, now, limit, receiptId, until, receipts), now, limit).1
            == Failure(DuplicateExport)
  {
    var first := Cycle(setup, l, now, limit, receiptId, until);
    var l1 := AfterReconcile(first, receipts);
    var second := Cycle(setup, l1, now, limit, receiptId, until);
    ChangedBackCollides(setup, l, first, l1, second, AfterReconcile(second, []), now, limit, receiptId, until, k,
        receipts);
  }

  lemma CollidingLedger(setup: Setup, now: Time) returns (ops: seq<Op>, l: Ledger, k: Key, receipts: seq<JobReceipt>)
    requires ValidSetup(setup) && setup.capacity > 0
    ensures l == Run(setup, EMPTY, ops) && Inv(setup, l) && l.exports == map[]
    ensures OneRecentRow(setup, l, now, k) && l.events[k].attribution.None?
    ensures |receipts| == 1 && AttributedPayload(l.events[k].payload, receipts).Some?
  {
    l, k, receipts := Collected(setup, now), Started().Id(), [StartReceipt()];
    CollectedRow(setup, now);
    StartIsAttributed();
    var op := Ingest([Record(Some("c"), Some(Started()))], {"u.service"}, now, 0.0);
    ops := [op];
    assert [op][1..] == [];
    assert Apply(setup, EMPTY, op) == l;
  }

  /**
   * It happens in every deployment: from a ledger that one ingest reaches, export, attribute, export again
   * and drop the attribution, all at one clock value, and the next `prepare` fails.
   */
  lemma CollisionHappens(setup: Setup, now: Time, limit: int, receiptId: string, until: Time)
    returns (ops: seq<Op>, l: Ledger, receipts: seq<JobReceipt>)
    requires ValidSetup(setup) && setup.capacity > 0 && Acknowledging(setup, now, limit, receiptId, until)
    ensures l == Run(setup, EMPTY, ops)
    ensures Prepare(setup, Twice(setup, l, now, limit, receiptId, until, receipts), now, limit).1
            == Failure(DuplicateExport)
  {
    var k;
    ops, l, k, receipts := CollidingLedger(setup, now);
    TwiceCollides(setup, l, now, limit, receiptId, until, k, receipts);
  }
}
