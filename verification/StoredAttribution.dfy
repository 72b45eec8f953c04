/**
 * Controllers and audit processes over one store (service_control.py with service_audit.py): where the
 * attribution stored beside an event comes from, when receipts are listed at one time and applied later.
 */
module StoredAttribution {
  import opened Common
  import opened Attribution
  import opened AuditLedger
  import opened LedgerInvariant
  import opened LedgerRuns
  import C = ServiceControl
  import H = Hysteresis

  /** The store, the controllers, and the listings of receipts that audit processes have read so far. */
  datatype Joint = Joint(ledger: Ledger, world: C.World, listings: set<seq<JobReceipt>>)

  datatype Step =
    | Control(step: C.Step)
    | List(receipts: seq<JobReceipt>)
    | Audit(op: Op)

  const START := Joint(EMPTY, C.IDLE, {})

  /** A listing is what the table holds then; a reconciliation uses one that was read before. */
  ghost predicate Enabled(j: Joint, step: Step) {
    match step
    case Control(_) => true
    case List(receipts) => C.Claimable(j.ledger.kind) && C.Lists(receipts, j.world.table)
    case Audit(op) => op.Reconcile? ==> op.receipts in j.listings
  }

  /** A controller with good arguments claims the kind of the store, and goes no further in one of another kind. */
  ghost function ControlNext(capacity: nat, j: Joint, c: C.Step): Joint {
    if c.Start? && C.ArgumentError(c.id, c.request, c.allowed).None? then
      if C.Claimable(j.ledger.kind)
          then Joint(Claimed(j.ledger, "service-control"), C.Next(capacity, j.world, c), j.listings)
      else j
    else j.(world := C.Next(capacity, j.world, c))
  }

  ghost function Next(setup: Setup, capacity: nat, j: Joint, step: Step): Joint
    requires ValidSetup(setup)
  {
    match step
    case Control(c) => ControlNext(capacity, j, c)
    case List(receipts) => Joint(Claimed(j.ledger, "service-control"), j.world, j.listings + {receipts})
    case Audit(op) => j.(ledger := Apply(setup, j.ledger, op))
  }

  ghost predicate Possible(setup: Setup, capacity: nat, j: Joint, steps: seq<Step>)
    requires ValidSetup(setup)
    decreases |steps|
  {
    steps == [] || (Enabled(j, steps[0]) && Possible(setup, capacity, Next(setup, capacity, j, steps[0]), steps[1..]))
  }

  ghost function RunAll(setup: Setup, capacity: nat, j: Joint, steps: seq<Step>): Joint
    requires ValidSetup(setup)
    decreases |steps|
  {
    if steps == [] then j else RunAll(setup, capacity, Next(setup, capacity, j, steps[0]), steps[1..])
  }

  // ---------- the invariant ----------

  predicate EarnedRow(w: C.World, r: Row) {
    r.attribution.Some? ==> r.payload.Service? && C.Earned(w, r.payload.event, r.attribution.value)
  }

  /** A receipt that some accepted operation stands behind, unchanged. */
  predicate Backed(w: C.World, r: JobReceipt) {
    exists id <- w.table :: w.table[id].outcome == "accepted" && r == C.ReceiptOf(id, w.table[id])
  }

  ghost predicate RowsEarned(w: C.World, l: Ledger) {
    && (forall id <- l.events :: EarnedRow(w, l.events[id]))
    && (forall b <- l.exports :: forall r <- b.events :: EarnedRow(w, r))
  }

  ghost predicate ListingsBacked(w: C.World, listings: set<seq<JobReceipt>>) {
    forall receipts <- listings :: forall r <- receipts :: Backed(w, r)
  }

  ghost predicate Sound(setup: Setup, j: Joint) {
    Inv(setup, j.ledger) && C.Inv(j.world) && RowsEarned(j.world, j.ledger) && ListingsBacked(j.world, j.listings)
  }

  // ---------- controllers ----------

  lemma EarnedStays(capacity: nat, w: C.World, step: C.Step, event: Event, who: Identity)
    requires C.Inv(w) && C.Earned(w, event, who)
    ensures C.Earned(C.Next(capacity, w, step), event, who)
  {
    var w1 := C.Next(capacity, w, step);
    C.StepKeeps(capacity, w, step);
    C.OutcomeStays(capacity, w, step, who.operationId);
    C.AcceptedHasSoleCall(w1, who.operationId);
  }

  lemma BackedStays(capacity: nat, w: C.World, step: C.Step, r: JobReceipt)
    requires C.Inv(w) && Backed(w, r)
    ensures Backed(C.Next(capacity, w, step), r)
  {
    var id :| id in w.table && w.table[id].outcome == "accepted" && r == C.ReceiptOf(id, w.table[id]);
    C.OutcomeStays(capacity, w, step, id);
  }

  lemma ControlKeeps(capacity: nat, w: C.World, w1: C.World, step: C.Step, l: Ledger, listings: set<seq<JobReceipt>>)
    requires C.Inv(w) && RowsEarned(w, l) && ListingsBacked(w, listings) && w1 == C.Next(capacity, w, step)
    ensures C.Inv(w1) && RowsEarned(w1, l) && ListingsBacked(w1, listings)
  {
    C.StepKeeps(capacity, w, step);
    forall r | EarnedRow(w, r) ensures EarnedRow(w1, r) {
      if r.attribution.Some? {
        EarnedStays(capacity, w, step, r.payload.event, r.attribution.value);
      }
    }
    forall r | Backed(w, r) ensures Backed(w1, r) {
      BackedStays(capacity, w, step, r);
    }
  }

  lemma ClaimedKeeps(setup: Setup, l: Ledger, l1: Ledger)
    requires Inv(setup, l) && l1 == Claimed(l, "service-control")
    ensures Inv(setup, l1) && l1.events == l.events && l1.exports == l.exports
  {
    Unchanged(setup, l, l1);
  }

  // ---------- ledger transactions ----------

  /** An attribution computed from a listing is earned. */
  lemma ListedIsEarned(w: C.World, event: Event, receipts: seq<JobReceipt>)
    requires C.Inv(w) && (forall r <- receipts :: Backed(w, r)) && Attributed(event, receipts).Some?
    ensures C.Earned(w, event, Attributed(event, receipts).value)
  {
    var who := Attributed(event, receipts).value;
    assert who in Claimants(event, receipts);
    var r :| r in receipts && Qualifies(event, r) && IdentityOf(r) == who;
    var id :| id in w.table && w.table[id].outcome == "accepted" && r == C.ReceiptOf(id, w.table[id]);
    C.AcceptedHasSoleCall(w, id);
  }

  lemma ReconcileEarns(w: C.World, l: Ledger, receipts: seq<JobReceipt>)
    requires C.Inv(w) && RowsEarned(w, l) && forall r <- receipts :: Backed(w, r)
    ensures RowsEarned(w, AfterReconcile(l, receipts))
  {
    match ReconcileAll(l, receipts)
    case Failure(_) =>
    case Success(l1) =>
      ReconcileCommits(l, l1, receipts);
      forall id | id in l1.events ensures EarnedRow(w, l1.events[id]) {
        var payload := l.events[id].payload;
        if payload.Service? && Attributed(payload.event, receipts).Some? {
          ListedIsEarned(w, payload.event, receipts);
        }
      }
  }

  /** The rows and exports of a transaction hold no attribution that was not there before. */
  ghost predicate NoneInvented(l: Ledger, l1: Ledger) {
    && (forall id <- l1.events :: Holds(l, l1.events[id]))
    && (forall b <- l1.exports :: b in l.exports || forall r <- b.events :: Holds(l, r))
  }

  ghost predicate Holds(l: Ledger, r: Row) {
    r.attribution.None? || exists id <- l.events ::
        l.events[id].payload == r.payload && l.events[id].attribution == r.attribution
  }

  lemma KnownIsEarned(w: C.World, l: Ledger, l1: Ledger)
    requires RowsEarned(w, l) && NoneInvented(l, l1)
    ensures RowsEarned(w, l1)
  {
    forall r | Holds(l, r) ensures EarnedRow(w, r) {
      if r.attribution.Some? {
        var id :| id in l.events && l.events[id].payload == r.payload && l.events[id].attribution == r.attribution;
        assert EarnedRow(w, l.events[id]);
      }
    }
  }

  lemma IngestInvents(setup: Setup, l: Ledger, rows: seq<Record>, units: set<string>, now: Time, grace: Time)
    ensures NoneInvented(l, AfterIngest(setup, l, rows, units, now, grace))
  {
    match IngestBatch(setup, l, rows, units, now, grace)
    case Success(l1) =>
      IngestCommits(setup, l, l1, rows, units, now, grace);
      IngestExtends(setup.capacity, l.events, l.archived.Keys, rows, now, now + grace);
      forall id | id in l1.events ensures Holds(l, l1.events[id]) {
        if id !in l.events { assert FreshRow(id, l1.events[id]); }
      }
    case Failure(_) =>
  }

  lemma ClaimInvents(setup: Setup, l: Ledger, now: Time)
    requires ValidSetup(setup)
    ensures NoneInvented(l, AfterClaim(setup, l, now))
  {
    var l1 := AfterClaim(setup, l, now);
    forall id | id in l1.events ensures Holds(l, l1.events[id]) {
      ClaimTouchesOne(setup, l, now, id);
    }
  }

  lemma SettledAttribution(l: Ledger, l1: Ledger, id: Key, reply: Reply)
    requires id in l.events && l1 == SettleRow(l, id, reply)
    ensures id in l1.events && l1.events[id].attribution == l.events[id].attribution
  {
    var r := l.events[id];
    if Confirms(reply, id) {
      assert l1.events[id]
             == r.(delivered := true, receipt := Some(Delivery(id, reply.receiptId.s)), lastError := None);
    } else if !r.delivered {
      assert l1.events[id] == r.(lastError := l1.events[id].lastError);
    } else {
      assert l1 == l;
    }
  }

  lemma SettleInvents(l: Ledger, id: Key, reply: Reply)
    ensures NoneInvented(l, SettleRow(l, id, reply))
  {
    var l1 := SettleRow(l, id, reply);
    if id in l.events {
      SettledRow(l, l1, id, reply);
      SettledAttribution(l, l1, id, reply);
      SettledInvents(l, l1, id);
    }
  }

  lemma SettledInvents(l: Ledger, l1: Ledger, id: Key)
    requires id in l.events && Settles(l, l1, id) && l1.events[id].attribution == l.events[id].attribution
    ensures NoneInvented(l, l1)
  {
    forall k | k in l1.events ensures Holds(l, l1.events[k]) {
      assert k in l.events && l1.events[k].payload == l.events[k].payload
             && l1.events[k].attribution == l.events[k].attribution;
    }
  }

  lemma ExportInvents(setup: Setup, l: Ledger, now: Time, limit: int)
    requires ValidSetup(setup)
    ensures NoneInvented(l, Prepare(setup, l, now, limit).0)
  {
    PrepareCommits(setup, l, now, limit);
    var l1 := Prepare(setup, l, now, limit).0;
    forall b | b in l1.exports && b !in l.exports ensures forall r <- b.events :: Holds(l, r) {
      BundleRows(setup, l, now, limit);
    }
  }

  lemma BundleRows(setup: Setup, l: Ledger, now: Time, limit: nat)
    requires ValidSetup(setup)
    ensures forall r <- PrepareBundle(setup, l, now, limit).events :: Holds(l, r)
  {
    var keys := FirstKeys(setup.rank, l.events, Backlog(setup, l, now), limit);
    forall r | r in RowsOf(l.events, keys) ensures Holds(l, r) {
      var i :| 0 <= i < |keys| && l.events[keys[i]] == r;
    }
  }

  lemma ReceiveInvents(setup: Setup, l: Ledger, b: Bundle, receipt: Retention, clock: Time)
    ensures NoneInvented(l, AfterReceive(setup, l, b, receipt, clock))
  {
  }

  lemma PruneInvents(setup: Setup, l: Ledger, b: Bundle, now: Time)
    requires Inv(setup, l)
    ensures NoneInvented(l, AfterPrune(setup, l, b, now))
  {
    match Prune(setup, l, b, now)
    case Failure(_) =>
    case Success(p) =>
      PruneCommits(setup, l, b, now);
      forall id | id in p.0.events ensures Holds(l, p.0.events[id]) {
        assert id in l.events && p.0.events[id] == l.events[id];
      }
  }

  lemma ObserveInvents(setup: Setup, l: Ledger, probe: string, policy: H.Policy, s: H.Sample)
    ensures NoneInvented(l, AfterObserve(setup, l, probe, policy, s))
  {
    match Observe(setup, l, probe, policy, s)
    case Failure(_) =>
    case Success(l1) =>
      ObserveCommits(setup, l, l1, probe, policy, s);
      forall id | id in l1.events ensures Holds(l, l1.events[id]) {
        assert (id in l.events && l1.events[id] == l.events[id]) || l1.events[id].attribution.None?;
      }
  }

  lemma OthersInvent(setup: Setup, l: Ledger, op: Op)
    requires ValidSetup(setup) && Inv(setup, l) && !op.Reconcile?
    ensures NoneInvented(l, Apply(setup, l, op))
  {
    match op
    case Ingest(rows, units, now, grace) => IngestInvents(setup, l, rows, units, now, grace);
    case ClaimNext(now) => ClaimInvents(setup, l, now);
    case SettleClaim(id, reply) => SettleInvents(l, id, reply);
    case MakeExport(now, limit) => ExportInvents(setup, l, now, limit);
    case Receive(b, receipt, clock) => ReceiveInvents(setup, l, b, receipt, clock);
    case Remove(b, now) => PruneInvents(setup, l, b, now);
    case ObserveProbe(probe, policy, s) => ObserveInvents(setup, l, probe, policy, s);
    case Crash =>
  }

  // ---------- runs ----------

  lemma AuditKeeps(setup: Setup, j: Joint, op: Op, l1: Ledger)
    requires ValidSetup(setup) && Sound(setup, j) && Enabled(j, Audit(op)) && l1 == Apply(setup, j.ledger, op)
    ensures Inv(setup, l1) && RowsEarned(j.world, l1)
  {
    StepKeeps(setup, j.ledger, op);
    if op.Reconcile? {
      ReconcileEarns(j.world, j.ledger, op.receipts);
    } else {
      OthersInvent(setup, j.ledger, op);
      KnownIsEarned(j.world, j.ledger, l1);
    }
  }

  lemma NextKeeps(setup: Setup, capacity: nat, j: Joint, step: Step)
    requires ValidSetup(setup) && Sound(setup, j) && Enabled(j, step)
    ensures Sound(setup, Next(setup, capacity, j, step))
  {
    match step
    case Control(c) =>
      ClaimedKeeps(setup, j.ledger, Claimed(j.ledger, "service-control"));
      ControlKeeps(capacity, j.world, C.Next(capacity, j.world, c), c, j.ledger, j.listings);
    case List(receipts) => ClaimedKeeps(setup, j.ledger, Claimed(j.ledger, "service-control"));
    case Audit(op) => AuditKeeps(setup, j, op, Apply(setup, j.ledger, op));
  }

  lemma {:induction false} RunsKeep(setup: Setup, capacity: nat, j: Joint, steps: seq<Step>)
    requires ValidSetup(setup) && Sound(setup, j) && Possible(setup, capacity, j, steps)
    ensures Sound(setup, RunAll(setup, capacity, j, steps))
    decreases |steps|
  {
    if steps != [] {
      NextKeeps(setup, capacity, j, steps[0]);
      RunsKeep(setup, capacity, Next(setup, capacity, j, steps[0]), steps[1..]);
    }
  }

  /**
   * In every run of controllers, collectors, reconciliations with listings of any age, dispatchers,
   * archivers and monitors, with deaths anywhere: whatever attribution a row or an export holds names an
   * accepted operation whose only call of the runner returned exactly the job of that event.
   */
  lemma StoredAttributionIsEarned(setup: Setup, capacity: nat, steps: seq<Step>)
    requires ValidSetup(setup) && Possible(setup, capacity, START, steps)
    ensures var j := RunAll(setup, capacity, START, steps);
            && (forall id <- j.ledger.events :: EarnedRow(j.world, j.ledger.events[id]))
            && (forall b <- j.ledger.exports :: forall r <- b.events :: EarnedRow(j.world, r))
  {
    RunsKeep(setup, capacity, START, steps);
  }
}
