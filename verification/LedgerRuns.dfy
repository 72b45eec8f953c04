/** What holds of the audit ledger over every run, from any ledger that satisfies the invariant. */
module LedgerRuns {
  import opened Common
  import opened Attribution
  import opened AuditLedger
  import opened LedgerInvariant
  import H = Hysteresis

  /** No run forgets: what it knew, archived, exported and was acknowledged stays so. */
  lemma {:induction false} RunKeeps(setup: Setup, l: Ledger, ops: seq<Op>)
    requires ValidSetup(setup) && Inv(setup, l)
    ensures Inv(setup, Run(setup, l, ops)) && Remembers(l, Run(setup, l, ops))
    decreases |ops|
  {
    if ops != [] {
      var l1 := Apply(setup, l, ops[0]);
      StepKeeps(setup, l, ops[0]);
      RunKeeps(setup, l1, ops[1..]);
      RemembersTransitive(l, l1, Run(setup, l, ops));
    }
  }

  // ---------- conservation ----------

  function NewRows(l: Ledger, l1: Ledger): set<Key> {
    l1.events.Keys - l.events.Keys
  }

  /** Every insertion into the events table along a run, with multiplicity. */
  ghost function Recorded(setup: Setup, l: Ledger, ops: seq<Op>): multiset<Key>
    requires ValidSetup(setup)
    decreases |ops|
  {
    if ops == [] then multiset{}
    else
      var l1 := Apply(setup, l, ops[0]);
      multiset(NewRows(l, l1)) + Recorded(setup, l1, ops[1..])
  }

  lemma StepConserves(l: Ledger, l1: Ledger)
    requires l1.events.Keys !! l1.archived.Keys && Remembers(l, l1) && l1.archived.Keys <= Known(l)
    ensures multiset(Known(l1)) == multiset(Known(l)) + multiset(NewRows(l, l1))
  {
    assert Known(l1) == Known(l) + NewRows(l, l1) && Known(l) !! NewRows(l, l1);
  }

  lemma OpConserves(setup: Setup, l: Ledger, op: Op)
    requires ValidSetup(setup) && Inv(setup, l)
    ensures var l1 := Apply(setup, l, op);
            Inv(setup, l1) && multiset(Known(l1)) == multiset(Known(l)) + multiset(NewRows(l, l1))
  {
    StepKeeps(setup, l, op);
    StepConserves(l, Apply(setup, l, op));
  }

  /**
   * Conservation: the identities ever inserted, counted with multiplicity, are exactly those now
   * live or archived, each once. So no identity is ever recorded twice, pruned or not.
   */
  lemma {:induction false} Conservation(setup: Setup, l: Ledger, ops: seq<Op>)
    requires ValidSetup(setup) && Inv(setup, l)
    ensures multiset(Known(Run(setup, l, ops))) == multiset(Known(l)) + Recorded(setup, l, ops)
    decreases |ops|
  {
    if ops != [] {
      OpConserves(setup, l, ops[0]);
      Conservation(setup, Apply(setup, l, ops[0]), ops[1..]);
    }
  }

  // ---------- replay ----------

  lemma {:induction false} KnownEventsAddNothing(capacity: nat, events: map<Key, Row>, archived: set<Key>,
                                                 rows: seq<Record>, now: Time, next: Time)
    requires EventKeys(rows) <= events.Keys + archived
    ensures AddEvents(capacity, events, archived, rows, now, next) in {Success(events), Failure(InvalidCursor)}
    decreases |rows|
  {
    if rows != [] {
      assert rows == [rows[0]] + rows[1..];
      EventKeysCons(rows[0], rows[1..]);
      KnownEventsAddNothing(capacity, events, archived, rows[1..], now, next);
    }
  }

  lemma IngestOfKnown(setup: Setup, l: Ledger, again: seq<Record>, units: set<string>, now: Time, grace: Time)
    requires EventKeys(again) <= Known(l)
    ensures match IngestBatch(setup, l, again, units, now, grace)
            case Success(l1) => l1.events == l.events && l1.archived == l.archived
            case Failure(e) => e != CapacityReached
  {
    KnownEventsAddNothing(setup.capacity, l.events, l.archived.Keys, again, now, now + grace);
    match IngestBatch(setup, l, again, units, now, grace)
    case Success(l1) => IngestCommits(setup, l, l1, again, units, now, grace);
    case Failure(_) => IngestFullOnlyIf(setup, l, again, units, now, grace);
  }

  lemma IngestFullOnlyIf(setup: Setup, l: Ledger, rows: seq<Record>, units: set<string>, now: Time, grace: Time)
    ensures IngestBatch(setup, l, rows, units, now, grace) == Failure(CapacityReached) ==>
              AddEvents(setup.capacity, l.events, l.archived.Keys, rows, now, now + grace) == Failure(CapacityReached)
  {
  }

  lemma IngestedIsKnown(setup: Setup, l: Ledger, l1: Ledger, batch: seq<Record>, units: set<string>, now: Time,
                        grace: Time, again: seq<Record>)
    requires IngestBatch(setup, l, batch, units, now, grace) == Success(l1)
    requires forall r <- again :: r in batch
    ensures EventKeys(again) <= Known(l1)
  {
    IngestCommits(setup, l, l1, batch, units, now, grace);
    IngestExtends(setup.capacity, l.events, l.archived.Keys, batch, now, now + grace);
    assert EventKeys(again) <= EventKeys(batch);
  }

  /**
   * Replaying any part of an ingested batch, after any run and whatever was pruned meanwhile,
   * changes neither the obligations nor the tombstones, and cannot fail for lack of capacity.
   */
  lemma ReplayAddsNothing(setup: Setup, l: Ledger, batch: seq<Record>, units: set<string>, now: Time, grace: Time,
                          ops: seq<Op>,
                          again: seq<Record>, units': set<string>, now': Time, grace': Time)
    requires ValidSetup(setup) && Inv(setup, l)
    requires IngestBatch(setup, l, batch, units, now, grace).Success?
    requires forall r <- again :: r in batch
    ensures var later := Run(setup, IngestBatch(setup, l, batch, units, now, grace).value, ops);
            match IngestBatch(setup, later, again, units', now', grace')
            case Success(replayed) => replayed.events == later.events && replayed.archived == later.archived
            case Failure(e) => e != CapacityReached
  {
    match IngestBatch(setup, l, batch, units, now, grace)
    case Success(l1) =>
      IngestedIsKnown(setup, l, l1, batch, units, now, grace, again);
      IngestKeeps(setup, l, batch, units, now, grace);
      RunKeeps(setup, l1, ops);
      IngestOfKnown(setup, Run(setup, l1, ops), again, units', now', grace');
  }

  // ---------- deletion ----------

  /** A transaction that neither removes rows nor claims them. */
  ghost predicate RowsKept(l: Ledger, l1: Ledger) {
    forall id <- l.events :: id in l1.events && RowKept(l.events[id], l1.events[id])
  }

  predicate RowKept(r: Row, r1: Row) {
    && r1.payload == r.payload && r1.created == r.created
    && r1.attempts == r.attempts && r1.nextAttempt == r.nextAttempt
    && (r.delivered ==> r1.delivered)
  }

  lemma SameRowsKept(l: Ledger, l1: Ledger)
    requires l1.events == l.events
    ensures RowsKept(l, l1)
  {
  }

  lemma MoreRowsKept(l: Ledger, l1: Ledger)
    requires forall id <- l.events :: id in l1.events && l1.events[id] == l.events[id]
    ensures RowsKept(l, l1)
  {
  }

  lemma AddEventsKeepRows(capacity: nat, events: map<Key, Row>, archived: set<Key>, rows: seq<Record>, now: Time,
                          next: Time, more: map<Key, Row>)
    requires AddEvents(capacity, events, archived, rows, now, next) == Success(more)
    ensures forall id <- events :: id in more && more[id] == events[id]
  {
    IngestExtends(capacity, events, archived, rows, now, next);
  }

  lemma IngestedRows(setup: Setup, l: Ledger, l1: Ledger, rows: seq<Record>, units: set<string>, now: Time, grace: Time)
    requires IngestBatch(setup, l, rows, units, now, grace) == Success(l1)
    ensures forall id <- l.events :: id in l1.events && l1.events[id] == l.events[id]
  {
    IngestCommits(setup, l, l1, rows, units, now, grace);
    AddEventsKeepRows(setup.capacity, l.events, l.archived.Keys, rows, now, now + grace, l1.events);
  }

  lemma IngestKeepsRows(setup: Setup, l: Ledger, rows: seq<Record>, units: set<string>, now: Time, grace: Time)
    ensures RowsKept(l, AfterIngest(setup, l, rows, units, now, grace))
  {
    match IngestBatch(setup, l, rows, units, now, grace)
    case Success(l1) =>
      IngestedRows(setup, l, l1, rows, units, now, grace);
      MoreRowsKept(l, l1);
    case Failure(_) => SameRowsKept(l, AfterIngest(setup, l, rows, units, now, grace));
  }

  lemma ReconcileKeepsRows(l: Ledger, receipts: seq<JobReceipt>)
    ensures RowsKept(l, AfterReconcile(l, receipts))
  {
    match ReconcileAll(l, receipts)
    case Success(l1) => ReconcileCommits(l, l1, receipts);
    case Failure(_) => SameRowsKept(l, AfterReconcile(l, receipts));
  }

  lemma ObserveKeepsRows(setup: Setup, l: Ledger, probe: string, policy: H.Policy, s: H.Sample)
    ensures RowsKept(l, AfterObserve(setup, l, probe, policy, s))
  {
    match Observe(setup, l, probe, policy, s)
    case Failure(_) =>
    case Success(l1) => ObserveAddsRow(setup, l, l1, probe, policy, s);
  }

  lemma ObserveAddsRow(setup: Setup, l: Ledger, l1: Ledger, probe: string, policy: H.Policy, s: H.Sample)
    requires Observe(setup, l, probe, policy, s) == Success(l1)
    ensures forall id <- l.events :: id in l1.events && l1.events[id] == l.events[id]
  {
    ObserveCommits(setup, l, l1, probe, policy, s);
  }

  lemma SettledRowKept(l: Ledger, l1: Ledger, id: Key, reply: Reply)
    requires id in l.events && l1 == SettleRow(l, id, reply)
    ensures id in l1.events && RowKept(l.events[id], l1.events[id])
  {
    var r := l.events[id];
    if Confirms(reply, id) {
      assert l1.events[id]
             == r.(delivered := true, receipt := Some(Delivery(id, reply.receiptId.s)), lastError := None);
    } else if !r.delivered {
      assert l1.events[id] == r.(lastError := l1.events[id].lastError);
    } else {
      assert l1 == l;
    }
  }

  lemma SettleKeepsRows(l: Ledger, id: Key, reply: Reply)
    ensures RowsKept(l, SettleRow(l, id, reply))
  {
    if id in l.events {
      var l1 := SettleRow(l, id, reply);
      SettledRow(l, l1, id, reply);
      SettledRowKept(l, l1, id, reply);
    }
  }

  lemma OthersKeepRows(setup: Setup, l: Ledger, op: Op)
    requires ValidSetup(setup) && Inv(setup, l) && !op.Remove? && !op.ClaimNext?
    ensures RowsKept(l, Apply(setup, l, op))
  {
    match op
    case Ingest(rows, units, now, grace) => IngestKeepsRows(setup, l, rows, units, now, grace);
    case Reconcile(receipts) => ReconcileKeepsRows(l, receipts);
    case SettleClaim(id, reply) => SettleKeepsRows(l, id, reply);
    case MakeExport(now, limit) =>
      PrepareCommits(setup, l, now, limit);
      SameRowsKept(l, Prepare(setup, l, now, limit).0);
    case Receive(b, receipt, clock) => SameRowsKept(l, AfterReceive(setup, l, b, receipt, clock));
    case ObserveProbe(probe, policy, s) => ObserveKeepsRows(setup, l, probe, policy, s);
    case Crash => SameRowsKept(l, l);
  }

  /** A row that was claimed. */
  ghost predicate WasClaimed(r: Row, r1: Row, now: Time) {
    r1 == r.(attempts := r.attempts + 1, nextAttempt := now + Delay(r.attempts + 1) as real, lastError :=
        Some("delivery_unconfirmed"))
  }

  lemma ClaimRowTouchesOne(l: Ledger, k: Key, now: Time, id: Key)
    requires k in l.events && id in l.events
    ensures var l1 := ClaimRow(l, k, now);
            id in l1.events && if id == k then WasClaimed(l.events[id], l1.events[id], now)
                else l1.events[id] == l.events[id]
  {
  }

  lemma ClaimTouchesOne(setup: Setup, l: Ledger, now: Time, id: Key)
    requires ValidSetup(setup) && id in l.events
    ensures id in AfterClaim(setup, l, now).events
    ensures var r, r1 := l.events[id], AfterClaim(setup, l, now).events[id];
            if NextClaim(setup, l, now) == Some(id) then Eligible(r, now) && WasClaimed(r, r1, now) else r1 == r
  {
    match NextClaim(setup, l, now)
    case None =>
    case Some(k) => ClaimRowTouchesOne(l, k, now, id);
  }

  lemma PruneTouchesNone(setup: Setup, l: Ledger, b: Bundle, now: Time, id: Key)
    requires Inv(setup, l) && id in l.events
    ensures var l1 := AfterPrune(setup, l, b, now);
            if id in l1.events then l1.events[id] == l.events[id]
            else b in l.exports && l.exports[b].receipt.Some? && l.events[id] in b.events
                 && DueForRetention(setup, l.events[id], now)
                 && now + setup.retention <= l.exports[b].receipt.value.until
                 && id in l1.archived && l1.archived[id] == b
  {
    if Prune(setup, l, b, now).Success? {
      PruneCommits(setup, l, b, now);
    }
  }

  /** Every deletion is justified, whichever transaction performs it. */
  lemma DeletionJustified(setup: Setup, l: Ledger, op: Op, id: Key)
    requires ValidSetup(setup) && Inv(setup, l)
    requires id in l.events && id !in Apply(setup, l, op).events
    ensures op.Remove? && op.bundle in l.exports && l.exports[op.bundle].receipt.Some?
    ensures l.events[id] in op.bundle.events
    ensures Settled(l.events[id]) && l.events[id].created <= op.now - setup.retention
    ensures op.now + setup.retention <= l.exports[op.bundle].receipt.value.until
    ensures id in Apply(setup, l, op).archived && Apply(setup, l, op).archived[id] == op.bundle
  {
    match op
    case Remove(b, now) => PruneTouchesNone(setup, l, b, now, id);
    case ClaimNext(now) => ClaimTouchesOne(setup, l, now, id);
    case _ => OthersKeepRows(setup, l, op);
  }

  lemma SameIdSameRow(rows: seq<Row>, a: Row, b: Row)
    requires DistinctIds(rows) && a in rows && b in rows && a.id == b.id
    ensures a == b
  {
  }

  /** A row that changed after its snapshot was taken is never removed under that snapshot. */
  lemma ChangedRowSurvives(setup: Setup, l: Ledger, b: Bundle, now: Time, saved: Row)
    requires ValidSetup(setup) && Inv(setup, l)
    requires saved in b.events && saved.id in l.events && l.events[saved.id] != saved
    ensures saved.id in AfterPrune(setup, l, b, now).events
  {
    if b in l.exports {
      assert SoundExport(setup, b, l.exports[b]);
      if l.events[saved.id] in b.events {
        SameIdSameRow(b.events, l.events[saved.id], saved);
      }
    }
    PruneTouchesNone(setup, l, b, now, saved.id);
  }

  /** Over whole runs: a row present before a run and gone after it left a justified tombstone. */
  lemma DepartedRowsAreJustified(setup: Setup, l: Ledger, ops: seq<Op>, id: Key)
    requires ValidSetup(setup) && Inv(setup, l) && id in l.events
    ensures var last := Run(setup, l, ops);
            id !in last.events ==> id in last.archived && Justified(setup, last.exports, id, last.archived[id])
  {
    RunKeeps(setup, l, ops);
    assert id in Known(l);
  }

  /** Pruning fails only for its documented reasons: no clashing tombstone, no altered snapshot. */
  lemma PruneNeverConflicts(setup: Setup, l: Ledger, b: Bundle, now: Time)
    requires ValidSetup(setup) && Inv(setup, l)
    ensures Prune(setup, l, b, now).Failure? ==>
            Prune(setup, l, b, now).error in {BadTime, NotAcknowledged, ShortHorizon}
  {
    if b in l.exports {
      assert SoundExport(setup, b, l.exports[b]);
      PruneRowsInBulk(setup, l, b, b.events, now);
    }
  }

  /** An unacknowledged export always still has its exact bytes, so delivery can always be retried. */
  lemma DeliveryKeepsBytes(setup: Setup, l: Ledger, b: Bundle, reply: SinkReply, clock: Time)
    requires ValidSetup(setup) && Inv(setup, l)
    ensures Deliver(setup, l, b, reply, clock).1.Failure? ==>
              Deliver(setup, l, b, reply, clock).1.error in {UnknownExport, BadTime, ShortHorizon, BadReceipt}
  {
    if b in l.exports {
      assert SoundExport(setup, b, l.exports[b]);
    }
  }

  lemma OneOpenExport(setup: Setup, l: Ledger)
    requires Inv(setup, l)
    ensures |OpenExports(l)| <= 1
  {
    if OpenExports(l) != {} {
      var a :| a in OpenExports(l);
      assert forall x <- OpenExports(l) :: x == a;
      assert OpenExports(l) == {a};
    }
  }

  /** The probe's INSERT ignores the tombstones, and still never meets a known identity. */
  lemma TransitionsAreNew(setup: Setup, l: Ledger, probe: string, policy: H.Policy, s: H.Sample)
    requires ValidSetup(setup) && Inv(setup, l)
    ensures var emitted := H.Advance(policy, MemoryOf(l, probe), LastSampleOf(l, probe), s).1;
            emitted.Some? ==> TransitionRow(probe, emitted.value).id !in Known(l)
    ensures Observe(setup, l, probe, policy, s) != Failure(DuplicateTombstone)
  {
    AdvanceNumbers(policy, MemoryOf(l, probe), LastSampleOf(l, probe), s);
    ProbeFresh(l, probe);
  }

  // ---------- delivery ----------

  /** How one transaction changes a row it leaves in place. */
  lemma RowEvolves(setup: Setup, l: Ledger, op: Op, id: Key)
    requires ValidSetup(setup) && Inv(setup, l)
    requires id in l.events && id in Apply(setup, l, op).events
    ensures var r, r1 := l.events[id], Apply(setup, l, op).events[id];
            && r1.payload == r.payload && r1.created == r.created
            && (r.delivered ==> r1.delivered)
            && if op.ClaimNext? && NextClaim(setup, l, op.now) == Some(id)
               then Eligible(r, op.now) && r1.attempts == r.attempts + 1
                   && r1.nextAttempt == op.now + Delay(r1.attempts) as real
               else r1.attempts == r.attempts && r1.nextAttempt == r.nextAttempt
  {
    match op
    case Remove(b, now) => PruneTouchesNone(setup, l, b, now, id);
    case ClaimNext(now) => ClaimTouchesOne(setup, l, now, id);
    case _ => OthersKeepRows(setup, l, op);
  }

  /** A delivered obligation stays delivered until it is archived; it is never pending again. */
  lemma {:induction false} DeliveredStays(setup: Setup, l: Ledger, ops: seq<Op>, id: Key)
    requires ValidSetup(setup) && Inv(setup, l) && id in Known(l)
    requires id in l.events ==> l.events[id].delivered
    ensures var last := Run(setup, l, ops);
            && id in Known(last)
            && (id in last.events ==> last.events[id].delivered && last.events[id].receipt.Some?
                                      && last.events[id].receipt.value.eventId == id)
    decreases |ops|
  {
    if ops != [] {
      var l1 := Apply(setup, l, ops[0]);
      StepKeeps(setup, l, ops[0]);
      if id in l.events && id in l1.events { RowEvolves(setup, l, ops[0], id); }
      DeliveredStays(setup, l1, ops[1..], id);
    }
  }

  /** The claim that one transaction makes of an obligation. */
  ghost function ClaimAt(setup: Setup, l: Ledger, op: Op, id: Key): seq<Time>
    requires ValidSetup(setup)
  {
    if op.ClaimNext? && NextClaim(setup, l, op.now) == Some(id) then [op.now] else []
  }

  /** The times at which a run claims an obligation for an attempt. */
  ghost function Claims(setup: Setup, l: Ledger, ops: seq<Op>, id: Key): seq<Time>
    requires ValidSetup(setup)
    decreases |ops|
  {
    if ops == [] then []
    else ClaimAt(setup, l, ops[0], id) + Claims(setup, Apply(setup, l, ops[0]), ops[1..], id)
  }

  lemma OnlyRowsAreClaimed(setup: Setup, l: Ledger, op: Op, id: Key)
    requires ValidSetup(setup) && id !in l.events
    ensures ClaimAt(setup, l, op, id) == []
  {
  }

  lemma OpOnArchived(setup: Setup, l: Ledger, op: Op, id: Key)
    requires ValidSetup(setup) && Inv(setup, l) && id in l.archived
    ensures ClaimAt(setup, l, op, id) == []
    ensures Inv(setup, Apply(setup, l, op)) && id in Apply(setup, l, op).archived
  {
    StepKeeps(setup, l, op);
    OnlyRowsAreClaimed(setup, l, op, id);
  }

  lemma {:induction false} ArchivedIsNeverClaimed(setup: Setup, l: Ledger, ops: seq<Op>, id: Key)
    requires ValidSetup(setup) && Inv(setup, l) && id in l.archived
    ensures Claims(setup, l, ops, id) == []
    decreases |ops|
  {
    if ops != [] {
      OpOnArchived(setup, l, ops[0], id);
      ArchivedIsNeverClaimed(setup, Apply(setup, l, ops[0]), ops[1..], id);
    }
  }

  /** Claim times that start no earlier than `next` and leave the retry delays after attempt `a`. */
  predicate Spaced(t: seq<Time>, next: Time, a: nat) {
    && (t != [] ==> next <= t[0])
    && forall k :: 0 < k < |t| ==> t[k - 1] + Delay(a + k) as real <= t[k]
  }

  lemma SpacedCons(now: Time, rest: seq<Time>, next: Time, a: nat)
    requires next <= now && Spaced(rest, now + Delay(a + 1) as real, a + 1)
    ensures Spaced([now] + rest, next, a)
  {
    var t := [now] + rest;
    forall k | 0 < k < |t| ensures t[k - 1] + Delay(a + k) as real <= t[k] {
      if k > 1 { assert t[k] == rest[k - 1] && t[k - 1] == rest[k - 2] && a + k == a + 1 + (k - 1); }
    }
  }

  /** At most one claim, at or after the due time, that sets the next one. */
  predicate ClaimMoves(r: Row, r1: Row, claims: seq<Time>) {
    if claims == [] then r1.nextAttempt == r.nextAttempt && r1.attempts == r.attempts
    else
      && claims == [claims[0]] && r.nextAttempt <= claims[0]
      && r1.attempts == r.attempts + 1 && r1.nextAttempt == claims[0] + Delay(r.attempts + 1) as real
  }

  lemma OneMoreClaim(r: Row, r1: Row, claims: seq<Time>, rest: seq<Time>)
    requires ClaimMoves(r, r1, claims) && Spaced(rest, r1.nextAttempt, r1.attempts)
    ensures Spaced(claims + rest, r.nextAttempt, r.attempts)
  {
    if claims == [] {
      assert claims + rest == rest;
    } else {
      SpacedCons(claims[0], rest, r.nextAttempt, r.attempts);
    }
  }

  /**
   * Retries back off over whole runs, whatever processes dispatch and however clocks move: the
   * first attempt waits for the due time, and each later one for the delay of the attempt before.
   */
  lemma {:induction false} ClaimsBackOff(setup: Setup, l: Ledger, ops: seq<Op>, id: Key)
    requires ValidSetup(setup) && Inv(setup, l) && id in l.events
    ensures Spaced(Claims(setup, l, ops, id), l.events[id].nextAttempt, l.events[id].attempts)
    decreases |ops|
  {
    if ops != [] {
      var l1 := Apply(setup, l, ops[0]);
      OpClaims(setup, l, ops[0], id);
      if id in l1.events {
        ClaimsBackOff(setup, l1, ops[1..], id);
        OneMoreClaim(l.events[id], l1.events[id], ClaimAt(setup, l, ops[0], id), Claims(setup, l1, ops[1..], id));
      } else {
        ArchivedIsNeverClaimed(setup, l1, ops[1..], id);
      }
    }
  }

  lemma OpClaims(setup: Setup, l: Ledger, op: Op, id: Key)
    requires ValidSetup(setup) && Inv(setup, l) && id in l.events
    ensures var l1 := Apply(setup, l, op);
            && Inv(setup, l1) && (id in l1.events || (id in l1.archived && ClaimAt(setup, l, op, id) == []))
            && (id in l1.events ==> ClaimMoves(l.events[id], l1.events[id], ClaimAt(setup, l, op, id)))
  {
    StepKeeps(setup, l, op);
    if id in Apply(setup, l, op).events {
      RowClaims(setup, l, op, id);
    } else {
      DeletionJustified(setup, l, op, id);
    }
  }

  lemma RowClaims(setup: Setup, l: Ledger, op: Op, id: Key)
    requires ValidSetup(setup) && Inv(setup, l) && id in l.events && id in Apply(setup, l, op).events
    ensures ClaimMoves(l.events[id], Apply(setup, l, op).events[id], ClaimAt(setup, l, op, id))
  {
    RowEvolves(setup, l, op, id);
  }

  // ---------- incidents ----------

  /** The sample of a probe that one transaction commits. */
  function AcceptedAt(setup: Setup, l: Ledger, op: Op, probe: string): seq<H.Sample> {
    if op.ObserveProbe? && op.probe == probe && Observe(setup, l, probe, op.policy, op.sample).Success?
        then [op.sample] else []
  }

  /** The samples of a probe that a run commits, after those of an earlier history. */
  ghost function Accepted(setup: Setup, l: Ledger, ops: seq<Op>, probe: string, h: seq<H.Sample>): seq<H.Sample>
    requires ValidSetup(setup)
    decreases |ops|
  {
    if ops == [] then h
    else Accepted(setup, Apply(setup, l, ops[0]), ops[1..], probe, h + AcceptedAt(setup, l, ops[0], probe))
  }

  lemma SameMonitors(l: Ledger, l1: Ledger, probe: string)
    requires l1.monitors == l.monitors
    ensures MemoryOf(l1, probe) == MemoryOf(l, probe) && LastSampleOf(l1, probe) == LastSampleOf(l, probe)
  {
  }

  lemma IngestMonitors(setup: Setup, l: Ledger, rows: seq<Record>, units: set<string>, now: Time, grace: Time)
    ensures AfterIngest(setup, l, rows, units, now, grace).monitors == l.monitors
  {
    match IngestBatch(setup, l, rows, units, now, grace)
    case Success(l1) => IngestCommits(setup, l, l1, rows, units, now, grace);
    case Failure(_) =>
  }

  lemma ReconcileMonitors(l: Ledger, receipts: seq<JobReceipt>)
    ensures AfterReconcile(l, receipts).monitors == l.monitors
  {
    match ReconcileAll(l, receipts)
    case Success(l1) => ReconcileCommits(l, l1, receipts);
    case Failure(_) =>
  }

  lemma SettleMonitors(l: Ledger, id: Key, reply: Reply)
    ensures SettleRow(l, id, reply).monitors == l.monitors
  {
    if id in l.events {
      SettledRow(l, SettleRow(l, id, reply), id, reply);
    }
  }

  lemma ClaimMonitors(setup: Setup, l: Ledger, now: Time)
    requires ValidSetup(setup)
    ensures AfterClaim(setup, l, now).monitors == l.monitors
  {
  }

  lemma ExportMonitors(setup: Setup, l: Ledger, now: Time, limit: int)
    requires ValidSetup(setup)
    ensures Prepare(setup, l, now, limit).0.monitors == l.monitors
  {
    PrepareCommits(setup, l, now, limit);
  }

  lemma ReceiveMonitors(setup: Setup, l: Ledger, b: Bundle, receipt: Retention, clock: Time)
    ensures AfterReceive(setup, l, b, receipt, clock).monitors == l.monitors
  {
  }

  lemma RemoveMonitors(setup: Setup, l: Ledger, b: Bundle, now: Time)
    requires Keyed(l.events) && l.events.Keys !! l.archived.Keys
    ensures AfterPrune(setup, l, b, now).monitors == l.monitors
  {
    if Prune(setup, l, b, now).Success? {
      PruneCommits(setup, l, b, now);
    }
  }

  /** Only a probe sample touches the monitors. */
  lemma OthersLeaveMonitors(setup: Setup, l: Ledger, op: Op)
    requires ValidSetup(setup) && !op.ObserveProbe? && Keyed(l.events) && l.events.Keys !! l.archived.Keys
    ensures Apply(setup, l, op).monitors == l.monitors
  {
    match op
    case Ingest(rows, units, now, grace) => IngestMonitors(setup, l, rows, units, now, grace);
    case Reconcile(receipts) => ReconcileMonitors(l, receipts);
    case ClaimNext(now) => ClaimMonitors(setup, l, now);
    case SettleClaim(id, reply) => SettleMonitors(l, id, reply);
    case MakeExport(now, limit) => ExportMonitors(setup, l, now, limit);
    case Receive(b, receipt, clock) => ReceiveMonitors(setup, l, b, receipt, clock);
    case Remove(b, now) => RemoveMonitors(setup, l, b, now);
    case Crash =>
  }

  lemma OtherProbe(setup: Setup, l: Ledger, p: string, policy: H.Policy, s: H.Sample, probe: string)
    requires p != probe || Observe(setup, l, p, policy, s).Failure?
    ensures var l1 := AfterObserve(setup, l, p, policy, s);
            MemoryOf(l1, probe) == MemoryOf(l, probe) && LastSampleOf(l1, probe) == LastSampleOf(l, probe)
  {
    match Observe(setup, l, p, policy, s)
    case Failure(_) =>
    case Success(l1) => ObserveCommits(setup, l, l1, p, policy, s);
  }

  lemma MonitorsUntouched(setup: Setup, l: Ledger, op: Op, probe: string)
    requires ValidSetup(setup)
    requires AcceptedAt(setup, l, op, probe) == []
    requires Keyed(l.events) && l.events.Keys !! l.archived.Keys
    ensures var l1 := Apply(setup, l, op);
            MemoryOf(l1, probe) == MemoryOf(l, probe) && LastSampleOf(l1, probe) == LastSampleOf(l, probe)
  {
    match op
    case ObserveProbe(p, policy, s) => OtherProbe(setup, l, p, policy, s, probe);
    case _ =>
      OthersLeaveMonitors(setup, l, op);
      SameMonitors(l, Apply(setup, l, op), probe);
  }

  /**
   * Through rollbacks, full tables and other processes, a probe's stored memory is the replay of
   * exactly the samples that committed.
   */
  lemma {:induction false} MemoryReplaysAccepted(setup: Setup, l: Ledger, ops: seq<Op>, probe: string,
                                                 policy: H.Policy, h: seq<H.Sample>)
    requires ValidSetup(setup) && Inv(setup, l)
    requires forall op <- ops :: op.ObserveProbe? && op.probe == probe ==> op.policy == policy
    requires Replayed(l, probe, policy, h)
    ensures Replayed(Run(setup, l, ops), probe, policy, Accepted(setup, l, ops, probe, h))
    decreases |ops|
  {
    if ops != [] {
      assert ops[0] in ops;
      OpReplayed(setup, l, ops[0], probe, policy, h);
      MemoryReplaysAccepted(setup, Apply(setup, l, ops[0]), ops[1..], probe, policy, h
          + AcceptedAt(setup, l, ops[0], probe));
    }
  }

  ghost predicate Replayed(l: Ledger, probe: string, policy: H.Policy, h: seq<H.Sample>) {
    MemoryOf(l, probe) == H.Replay(policy, h) && LastSampleOf(l, probe) == H.LastAt(h)
  }

  lemma OpReplayed(setup: Setup, l: Ledger, op: Op, probe: string, policy: H.Policy, h: seq<H.Sample>)
    requires ValidSetup(setup) && Inv(setup, l) && Replayed(l, probe, policy, h)
    requires op.ObserveProbe? && op.probe == probe ==> op.policy == policy
    ensures Inv(setup, Apply(setup, l, op))
    ensures Replayed(Apply(setup, l, op), probe, policy, h + AcceptedAt(setup, l, op, probe))
  {
    StepKeeps(setup, l, op);
    if AcceptedAt(setup, l, op, probe) == [] {
      MonitorsUntouched(setup, l, op, probe);
      assert h + [] == h;
    } else {
      SampleReplayed(setup, l, Apply(setup, l, op), probe, policy, op.sample, h);
    }
  }

  lemma SampleReplayed(setup: Setup, l: Ledger, l1: Ledger, probe: string, policy: H.Policy, s: H.Sample,
                       h: seq<H.Sample>)
    requires Observe(setup, l, probe, policy, s) == Success(l1)
    requires Replayed(l, probe, policy, h)
    ensures Replayed(l1, probe, policy, h + [s])
  {
    ObserveTracks(setup, l, l1, probe, policy, s);
    H.ReplayNext(policy, h, s);
  }

  lemma ObserveTracks(setup: Setup, l: Ledger, l1: Ledger, probe: string, policy: H.Policy, s: H.Sample)
    requires Observe(setup, l, probe, policy, s) == Success(l1)
    ensures LastSampleOf(l1, probe) == Some(s.at)
    ensures MemoryOf(l1, probe) == H.Advance(policy, MemoryOf(l, probe), LastSampleOf(l, probe), s).0
  {
    ObserveCommits(setup, l, l1, probe, policy, s);
  }

  /** An incident ledger has no holes: its transitions, live or archived, are those the history calls for. */
  lemma IncidentLedgerIsComplete(setup: Setup, ops: seq<Op>, probe: string, policy: H.Policy, n: nat)
    requires ValidSetup(setup)
    requires forall op <- ops :: op.ObserveProbe? && op.probe == probe ==> op.policy == policy
    ensures var h := Accepted(setup, EMPTY, ops, probe, []);
            Probe(probe, n) in Known(Run(setup, EMPTY, ops)) <==> 1 <= n <= |H.Emissions(policy, h)|
  {
    var h := Accepted(setup, EMPTY, ops, probe, []);
    RunKeeps(setup, EMPTY, ops);
    MemoryReplaysAccepted(setup, EMPTY, ops, probe, policy, []);
    H.LedgerReplaysToState(policy, h);
  }
}
