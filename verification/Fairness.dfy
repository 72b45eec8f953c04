/**
 * How long a changed row waits for its export while other rows change as well (evidence_archive.py,
 * prepare): export passes at a moving clock, with any other transactions between them.
 */
module Fairness {
  import opened Common
  import opened Attribution
  import opened AuditLedger
  import opened LedgerInvariant
  import opened LedgerRuns
  import opened RowOrder
  import H = Hysteresis
  import opened Drain

  // ---------- who is bundled ----------

  function Elements(keys: seq<Key>): set<Key> {
    set k | k in keys
  }

  lemma {:induction false} ElementsCount(keys: seq<Key>)
    requires forall i, j :: 0 <= i < j < |keys| ==> keys[i] != keys[j]
    ensures |Elements(keys)| == |keys|
  {
    if keys == [] {
      assert Elements(keys) == {};
    } else {
      var n := |keys| - 1;
      ElementsCount(keys[..n]);
      assert Elements(keys) == Elements(keys[..n]) + {keys[n]};
      assert keys[n] !in keys[..n];
    }
  }

  lemma {:induction false} SubsetCount<T>(a: set<T>, b: set<T>)
    requires a <= b
    ensures |a| <= |b| && (|a| == |b| ==> a == b)
  {
    if a != {} {
      var x :| x in a;
      SubsetCount(a - {x}, b - {x});
    }
  }

  /** Given rows that come before row k. */
  ghost function Earlier(rank: Key -> nat, table: map<Key, Row>, keys: set<Key>, k: Key): set<Key>
    requires keys <= table.Keys && k in table
  {
    set x | x in keys && Before(rank, table, x, k)
  }

  /** A row is among the first ones exactly if fewer than the limit come before it; else the first ones all do. */
  lemma FirstByCount(rank: Key -> nat, table: map<Key, Row>, keys: set<Key>, limit: nat, k: Key)
    requires Injective(rank) && keys <= table.Keys && k in keys
    ensures var first, earlier := FirstKeys(rank, table, keys, limit), Earlier(rank, table, keys, k);
            && (k in first <==> |earlier| < limit)
            && (k !in first ==> Elements(first) <= earlier && |Elements(first)| == limit)
  {
    var first, earlier := FirstKeys(rank, table, keys, limit), Earlier(rank, table, keys, k);
    FirstKeysProperties(rank, table, keys, limit);
    AscendingKeysDiffer(rank, table, first);
    ElementsCount(first);
    if k in first {
      forall x | x in earlier ensures x in Elements(first) - {k} {
        assert x !in first ==> Before(rank, table, k, x);
      }
      SubsetCount(earlier, Elements(first) - {k});
    } else {
      SubsetCount(Elements(first), keys);
      SubsetCount(Elements(first), earlier);
    }
  }

  /** The rows of the backlog that are exported before row k. */
  ghost function Ahead(setup: Setup, l: Ledger, now: Time, k: Key): set<Key> {
    if k in l.events then Earlier(setup.rank, l.events, Backlog(setup, l, now), k) else {}
  }

  ghost predicate Bundled(setup: Setup, l: Ledger, now: Time, limit: nat, k: Key)
    requires ValidSetup(setup)
  {
    k in l.events && l.events[k] in PrepareBundle(setup, l, now, limit).events
  }

  lemma RowsOfKeys(table: map<Key, Row>, keys: seq<Key>, k: Key)
    requires Keyed(table) && (forall x <- keys :: x in table) && k in table
    ensures table[k] in RowsOf(table, keys) <==> k in keys
  {
    var rows := RowsOf(table, keys);
    assert forall i :: 0 <= i < |keys| ==> rows[i] == table[keys[i]] && rows[i].id == keys[i];
    if k in keys {
      var i :| 0 <= i < |keys| && keys[i] == k;
      assert rows[i] in rows;
    }
  }

  lemma IdsOfKeys(table: map<Key, Row>, keys: seq<Key>)
    requires Keyed(table) && forall x <- keys :: x in table
    ensures Ids(RowsOf(table, keys)) == Elements(keys)
  {
    var rows := RowsOf(table, keys);
    assert forall i :: 0 <= i < |keys| ==> rows[i].id == keys[i] && rows[i] in rows;
    forall r | r in rows ensures r.id in keys {
      var i :| 0 <= i < |rows| && rows[i] == r;
      assert r.id == keys[i];
    }
  }

  /** A row of the backlog is bundled exactly if fewer than the limit are ahead; else the whole bundle is. */
  lemma BundledByCount(setup: Setup, l: Ledger, now: Time, limit: nat, k: Key)
    requires ValidSetup(setup) && Keyed(l.events) && k in Backlog(setup, l, now)
    ensures var bundle, ahead := Ids(PrepareBundle(setup, l, now, limit).events), Ahead(setup, l, now, k);
            && (Bundled(setup, l, now, limit, k) <==> |ahead| < limit)
            && (Bundled(setup, l, now, limit, k) <==> k in bundle)
            && (|ahead| >= limit ==> bundle <= ahead && |bundle| == limit)
  {
    var keys := FirstKeys(setup.rank, l.events, Backlog(setup, l, now), limit);
    FirstKeysProperties(setup.rank, l.events, Backlog(setup, l, now), limit);
    IdsOfKeys(l.events, keys);
    RowsOfKeys(l.events, keys, k);
    FirstByCount(setup.rank, l.events, Backlog(setup, l, now), limit, k);
  }

  // ---------- one pass ----------

  /** What one pass means for a row of the backlog. */
  ghost predicate Taken(setup: Setup, l: Ledger, l1: Ledger, now: Time, limit: nat, k: Key)
    requires ValidSetup(setup)
  {
    if |Ahead(setup, l, now, k)| < limit then
      Bundled(setup, l, now, limit, k) && k !in Backlog(setup, l1, now)
      && (k in l1.events ==> k in l1.versions && l1.versions[k] == l1.events[k])
    else
      !Bundled(setup, l, now, limit, k) && k in Backlog(setup, l1, now)
      && |Ahead(setup, l1, now, k)| == |Ahead(setup, l, now, k)| - limit
  }

  /** A pass exports the row, or takes `limit` of the rows ahead of it and none else. */
  lemma PassTakes(setup: Setup, l: Ledger, now: Time, limit: int, receiptId: string, until: Time, k: Key)
    requires ValidSetup(setup) && Ready(setup, l, now) && Acknowledging(setup, now, limit, receiptId, until)
    requires k in Backlog(setup, l, now)
    ensures Taken(setup, l, Cycle(setup, l, now, limit, receiptId, until), now, limit, k)
  {
    var b, l1 := PrepareBundle(setup, l, now, limit), Cycle(setup, l, now, limit, receiptId, until);
    CycleInBulk(setup, l, now, limit, receiptId, until);
    SnapshotRows(setup, l, now, limit);
    FinishedBacklog(setup, l, b, Retention(b, setup.sink, receiptId, until), now);
    FinishedRow(setup, l, b, Retention(b, setup.sink, receiptId, until), now, k);
    BundledByCount(setup, l, now, limit, k);
    if |Ahead(setup, l, now, k)| >= limit {
      AheadShrinks(setup, l, l1, now, Ids(b.events), k);
    }
  }

  lemma AheadShrinks(setup: Setup, l: Ledger, l1: Ledger, now: Time, taken: set<Key>, k: Key)
    requires Backlog(setup, l1, now) == Backlog(setup, l, now) - taken && Shrunk(setup, l, l1, now)
    requires k in Backlog(setup, l1, now) && taken <= Ahead(setup, l, now, k)
    ensures Ahead(setup, l1, now, k) == Ahead(setup, l, now, k) - taken
  {
    forall x ensures x in Ahead(setup, l1, now, k) <==> x in Ahead(setup, l, now, k) - taken {
      assert x in Backlog(setup, l1, now) ==> x in l.events && l1.events[x] == l.events[x];
    }
  }

  // ---------- many passes ----------

  /** One export pass, and the transactions that commit before the next one. */
  datatype Pass = Pass(now: Time, receiptId: string, until: Time, ops: seq<Op>)

  ghost function Cycled(setup: Setup, l: Ledger, pass: Pass, limit: int): Ledger
    requires ValidSetup(setup)
  {
    Cycle(setup, l, pass.now, limit, pass.receiptId, pass.until)
  }

  /** A pass whose sink acknowledges, followed by anything but another export. */
  predicate GoodPass(setup: Setup, pass: Pass, limit: int) {
    && Acknowledging(setup, pass.now, limit, pass.receiptId, pass.until)
    && forall op <- pass.ops :: !op.MakeExport?
  }

  /** No export is open, and all were made before now. */
  ghost predicate Fresh(setup: Setup, l: Ledger, now: Time) {
    Inv(setup, l) && forall b <- l.exports :: l.exports[b].payload.None? && b.created < now
  }

  ghost predicate Follows(setup: Setup, l: Ledger, pass: Pass, limit: int, l1: Ledger)
    requires ValidSetup(setup)
  {
    l1 == Run(setup, Cycled(setup, l, pass, limit), pass.ops)
  }

  /** The ledgers before each of some passes at a moving clock, and after the last one. */
  ghost predicate Passes(setup: Setup, ls: seq<Ledger>, passes: seq<Pass>, limit: int)
    requires ValidSetup(setup)
  {
    && |ls| == |passes| + 1
    && (passes != [] ==> Fresh(setup, ls[0], passes[0].now))
    && (forall i ::
       0 <= i < |passes| ==> GoodPass(setup, passes[i], limit) && Follows(setup, ls[i], passes[i], limit, ls[i + 1]))
    && (forall i :: 0 < i < |passes| ==> passes[i - 1].now < passes[i].now)
  }

  /** The same exports, none opened again. */
  ghost predicate NoneOpened(l: Ledger, l1: Ledger) {
    l1.exports.Keys == l.exports.Keys && forall b <- l.exports ::
        l.exports[b].payload.None? ==> l1.exports[b].payload.None?
  }

  lemma IngestExports(setup: Setup, l: Ledger, rows: seq<Record>, units: set<string>, now: Time, grace: Time)
    ensures AfterIngest(setup, l, rows, units, now, grace).exports == l.exports
  {
    match IngestBatch(setup, l, rows, units, now, grace)
    case Success(l1) => IngestCommits(setup, l, l1, rows, units, now, grace);
    case Failure(_) =>
  }

  lemma ReconcileExports(l: Ledger, receipts: seq<JobReceipt>)
    ensures AfterReconcile(l, receipts).exports == l.exports
  {
    match ReconcileAll(l, receipts)
    case Success(l1) => ReconcileCommits(l, l1, receipts);
    case Failure(_) =>
  }

  lemma ObserveExports(setup: Setup, l: Ledger, probe: string, policy: H.Policy, s: H.Sample)
    ensures AfterObserve(setup, l, probe, policy, s).exports == l.exports
  {
    match Observe(setup, l, probe, policy, s)
    case Success(l1) => ObserveCommits(setup, l, l1, probe, policy, s);
    case Failure(_) =>
  }

  lemma SettleExports(l: Ledger, id: Key, reply: Reply)
    ensures SettleRow(l, id, reply).exports == l.exports
  {
  }

  lemma ReceiveOpensNone(setup: Setup, l: Ledger, b: Bundle, receipt: Retention, clock: Time)
    ensures NoneOpened(l, AfterReceive(setup, l, b, receipt, clock))
  {
  }

  lemma RemoveOpensNone(setup: Setup, l: Ledger, b: Bundle, now: Time)
    requires Inv(setup, l)
    ensures NoneOpened(l, AfterPrune(setup, l, b, now))
  {
    if Prune(setup, l, b, now).Success? {
      PruneCommits(setup, l, b, now);
    }
  }

  lemma StepOpensNone(setup: Setup, l: Ledger, op: Op)
    requires ValidSetup(setup) && Inv(setup, l) && !op.MakeExport?
    ensures NoneOpened(l, Apply(setup, l, op))
  {
    match op
    case Ingest(rows, units, now, grace) => IngestExports(setup, l, rows, units, now, grace);
    case Reconcile(receipts) => ReconcileExports(l, receipts);
    case ClaimNext(now) =>
    case SettleClaim(id, reply) => SettleExports(l, id, reply);
    case Receive(b, receipt, clock) => ReceiveOpensNone(setup, l, b, receipt, clock);
    case Remove(b, now) => RemoveOpensNone(setup, l, b, now);
    case ObserveProbe(probe, policy, s) => ObserveExports(setup, l, probe, policy, s);
    case Crash =>
  }

  lemma {:induction false} RunOpensNone(setup: Setup, l: Ledger, ops: seq<Op>)
    requires ValidSetup(setup) && Inv(setup, l) && forall op <- ops :: !op.MakeExport?
    ensures Inv(setup, Run(setup, l, ops)) && NoneOpened(l, Run(setup, l, ops))
    decreases |ops|
  {
    if ops != [] {
      StepOpensNone(setup, l, ops[0]);
      StepKeeps(setup, l, ops[0]);
      RunOpensNone(setup, Apply(setup, l, ops[0]), ops[1..]);
    }
  }

  lemma CycleExports(setup: Setup, l: Ledger, now: Time, limit: int, receiptId: string, until: Time)
    requires ValidSetup(setup) && Fresh(setup, l, now) && Acknowledging(setup, now, limit, receiptId, until)
    ensures var l1 := Cycle(setup, l, now, limit, receiptId, until);
            Ready(setup, l, now) && Inv(setup, l1) && forall b <- l1.exports ::
                l1.exports[b].payload.None? && b.created <= now
  {
    CycleProgress(setup, l, now, limit, receiptId, until);
    if Backlog(setup, l, now) == {} {
      NothingOpen(l);
    } else {
      CycleInBulk(setup, l, now, limit, receiptId, until);
    }
  }

  lemma NextIsFresh(setup: Setup, l: Ledger, pass: Pass, limit: int, later: Time)
    requires ValidSetup(setup) && Fresh(setup, l, pass.now) && GoodPass(setup, pass, limit) && pass.now < later
    ensures Fresh(setup, Run(setup, Cycled(setup, l, pass, limit), pass.ops), later)
  {
    CycleExports(setup, l, pass.now, limit, pass.receiptId, pass.until);
    RunOpensNone(setup, Cycled(setup, l, pass, limit), pass.ops);
  }

  lemma {:induction false} EachIsFresh(setup: Setup, ls: seq<Ledger>, passes: seq<Pass>, limit: int, i: nat)
    requires ValidSetup(setup) && Passes(setup, ls, passes, limit) && i < |passes|
    ensures Fresh(setup, ls[i], passes[i].now)
  {
    if i > 0 {
      EachIsFresh(setup, ls, passes, limit, i - 1);
      NextIsFresh(setup, ls[i - 1], passes[i - 1], limit, passes[i].now);
    }
  }

  /** The rows ahead of k at the i-th pass. */
  ghost function AheadAt(setup: Setup, ls: seq<Ledger>, passes: seq<Pass>, k: Key, i: nat): set<Key>
    requires |ls| == |passes| + 1 && i < |passes|
  {
    Ahead(setup, ls[i], passes[i].now, k)
  }

  /** The rows that were still ahead of k when the i-th pass was over. */
  ghost function RestAt(setup: Setup, ls: seq<Ledger>, passes: seq<Pass>, limit: int, k: Key, i: nat): set<Key>
    requires ValidSetup(setup) && |ls| == |passes| + 1 && i < |passes|
  {
    Ahead(setup, Cycled(setup, ls[i], passes[i], limit), passes[i].now, k)
  }

  /** The rows that come ahead of k between the i-th pass and the next: changed, or due by then. */
  ghost function Joining(setup: Setup, ls: seq<Ledger>, passes: seq<Pass>, limit: int, k: Key, i: nat): set<Key>
    requires ValidSetup(setup) && |ls| == |passes| + 1 && i + 1 < |passes|
  {
    AheadAt(setup, ls, passes, k, i + 1) - RestAt(setup, ls, passes, limit, k, i)
  }

  /** The rows ahead of k that leave in between: changed back to their exported version, or pruned. */
  ghost function Leaving(setup: Setup, ls: seq<Ledger>, passes: seq<Pass>, limit: int, k: Key, i: nat): set<Key>
    requires ValidSetup(setup) && |ls| == |passes| + 1 && i + 1 < |passes|
  {
    RestAt(setup, ls, passes, limit, k, i) - AheadAt(setup, ls, passes, k, i + 1)
  }

  ghost predicate WaitsAt(setup: Setup, ls: seq<Ledger>, passes: seq<Pass>, k: Key, i: nat)
    requires |ls| == |passes| + 1 && i < |passes|
  {
    k in Backlog(setup, ls[i], passes[i].now)
  }

  ghost predicate BundledAt(setup: Setup, ls: seq<Ledger>, passes: seq<Pass>, limit: nat, k: Key, i: nat)
    requires ValidSetup(setup) && |ls| == |passes| + 1 && i < |passes|
  {
    Bundled(setup, ls[i], passes[i].now, limit, k)
  }

  lemma SetBalance<T>(a: set<T>, b: set<T>)
    ensures |b| == |a| + |b - a| - |a - b|
  {
    assert b == (b - a) + (a * b) && a == (a - b) + (a * b);
  }

  /**
   * The law of the queue: a waiting row is bundled exactly if fewer than `limit` rows are ahead of it, and
   * otherwise the number ahead falls by `limit`, rises by the rows that join and falls by those that leave.
   */
  lemma QueueMoves(setup: Setup, ls: seq<Ledger>, passes: seq<Pass>, limit: int, k: Key, i: nat)
    requires ValidSetup(setup) && Passes(setup, ls, passes, limit) && i < |passes| && WaitsAt(setup, ls, passes, k, i)
    ensures limit >= 1 && (BundledAt(setup, ls, passes, limit, k, i) <==> |AheadAt(setup, ls, passes, k, i)| < limit)
    ensures BundledAt(setup, ls, passes, limit, k, i) ==>
              var l1 := Cycled(setup, ls[i], passes[i], limit);
              k in l1.events ==> k in l1.versions && l1.versions[k] == l1.events[k]
    ensures !BundledAt(setup, ls, passes, limit, k, i) && i + 1 < |passes| ==>
              |AheadAt(setup, ls, passes, k, i + 1)| == |AheadAt(setup, ls, passes, k, i)| - limit
                + |Joining(setup, ls, passes, limit, k, i)| - |Leaving(setup, ls, passes, limit, k, i)|
  {
    var pass := passes[i];
    EachIsFresh(setup, ls, passes, limit, i);
    CycleExports(setup, ls[i], pass.now, limit, pass.receiptId, pass.until);
    PassTakes(setup, ls[i], pass.now, limit, pass.receiptId, pass.until, k);
    if i + 1 < |passes| {
      SetBalance(RestAt(setup, ls, passes, limit, k, i), AheadAt(setup, ls, passes, k, i + 1));
    }
  }

  lemma {:induction false} QueueShrinks(setup: Setup, ls: seq<Ledger>, passes: seq<Pass>, limit: int, k: Key, r: nat,
                                        n: nat)
    requires ValidSetup(setup) && Passes(setup, ls, passes, limit) && n < |passes|
    requires forall i :: 0 <= i <= n ==> WaitsAt(setup, ls, passes, k, i)
    requires forall i :: 0 <= i < n ==> !BundledAt(setup, ls, passes, limit, k, i)
    requires forall i :: 0 <= i < n ==> |Joining(setup, ls, passes, limit, k, i)| <= r
    ensures |AheadAt(setup, ls, passes, k, n)| <= |AheadAt(setup, ls, passes, k, 0)| - n * (limit - r)
  {
    if n > 0 {
      QueueShrinks(setup, ls, passes, limit, k, r, n - 1);
      QueueMoves(setup, ls, passes, limit, k, n - 1);
      assert n * (limit - r) == (n - 1) * (limit - r) + (limit - r);
    }
  }

  /**
   * Fairness: if at most r rows join ahead of a row between two passes, the row is bundled within n + 1
   * passes, or needs no export at one of them, as soon as fewer than limit + n * (limit - r) rows are ahead.
   * If the rows ahead stand still, that is ceil((ahead + 1) / limit) passes.
   */
  lemma ChangedRowIsExported(setup: Setup, ls: seq<Ledger>, passes: seq<Pass>, limit: int, k: Key, r: nat, n: nat)
    requires ValidSetup(setup) && Passes(setup, ls, passes, limit) && n < |passes|
    requires forall i :: 0 <= i < n ==> |Joining(setup, ls, passes, limit, k, i)| <= r
    requires |AheadAt(setup, ls, passes, k, 0)| < limit + n * (limit - r)
    ensures exists i :: 0 <= i <= n && (BundledAt(setup, ls, passes, limit, k, i) || !WaitsAt(setup, ls, passes, k, i))
  {
    if forall i :: 0 <= i <= n ==> WaitsAt(setup, ls, passes, k, i) && !BundledAt(setup, ls, passes, limit, k, i) {
      QueueShrinks(setup, ls, passes, limit, k, r, n);
      QueueMoves(setup, ls, passes, limit, k, n);
      assert false;
    }
  }

  /**
   * The bound is exact: while r more rows join than leave, a row that waits with at least
   * limit + n * (limit - r) rows ahead, or at least limit if r is no less, is in none of the n + 1 bundles.
   */
  lemma {:induction false} ChangedRowStarves(setup: Setup, ls: seq<Ledger>, passes: seq<Pass>, limit: int, k: Key,
                                             r: nat, n: nat)
    requires ValidSetup(setup) && Passes(setup, ls, passes, limit) && n < |passes|
    requires forall i :: 0 <= i <= n ==> WaitsAt(setup, ls, passes, k, i)
    requires forall i ::
             0 <= i < n ==> |Joining(setup, ls, passes, limit, k, i)| - |Leaving(setup, ls, passes, limit, k, i)| >= r
    requires |AheadAt(setup, ls, passes, k, 0)| >= limit + (if r < limit then n * (limit - r) else 0)
    ensures forall i :: 0 <= i <= n ==> !BundledAt(setup, ls, passes, limit, k, i)
    ensures |AheadAt(setup, ls, passes, k, n)| >= AtLeast(|AheadAt(setup, ls, passes, k, 0)|, limit, r, n)
  {
    if n > 0 {
      if r < limit {
        FewerBefore(limit, r, n);
      }
      ChangedRowStarves(setup, ls, passes, limit, k, r, n - 1);
      QueueMoves(setup, ls, passes, limit, k, n - 1);
      StillAhead(|AheadAt(setup, ls, passes, k, 0)|, limit, r, n, |AheadAt(setup, ls, passes, k, n - 1)|,
          |AheadAt(setup, ls, passes, k, n)|);
    }
    QueueMoves(setup, ls, passes, limit, k, n);
  }

  /** What is ahead at least, after n passes. */
  function AtLeast(ahead: nat, limit: int, r: nat, n: nat): int {
    if r < limit then ahead - n * (limit - r) else limit
  }

  lemma StillAhead(ahead: nat, limit: int, r: nat, n: nat, before: nat, after: nat)
    requires n > 0 && before >= AtLeast(ahead, limit, r, n - 1) && after >= before - limit + r
    ensures after >= AtLeast(ahead, limit, r, n)
  {
    assert n * (limit - r) == (n - 1) * (limit - r) + (limit - r);
  }

  lemma FewerBefore(limit: int, r: nat, n: nat)
    requires n > 0 && r < limit
    ensures (n - 1) * (limit - r) <= n * (limit - r)
  {
    assert n * (limit - r) == (n - 1) * (limit - r) + (limit - r);
  }

  // ---------- a starving row ----------

  /** Two rows that nothing settles, both changed since their last export, the earlier one due for another attempt. */
  ghost predicate Pair(setup: Setup, l: Ledger, now: Time, x: Key, k: Key) {
    && l.events.Keys == {x, k} && Before(setup.rank, l.events, x, k) && Backlog(setup, l, now) == {x, k}
    && !Settled(l.events[x]) && !Settled(l.events[k]) && l.events[x].nextAttempt <= now
  }

  ghost predicate Starving(setup: Setup, l: Ledger, now: Time, x: Key, k: Key) {
    Fresh(setup, l, now) && now >= 0.0 && Pair(setup, l, now, x, k)
  }

  /** One export of one row, and one delivery attempt. */
  function ExportAndRetry(setup: Setup, now: Time): Pass {
    Pass(now, "r", now + setup.retention, [ClaimNext(now)])
  }

  /** One row is ahead of the later one, and none of the earlier one. */
  lemma OneAhead(setup: Setup, l: Ledger, now: Time, x: Key, k: Key)
    requires Pair(setup, l, now, x, k)
    ensures Ahead(setup, l, now, x) == {} && Ahead(setup, l, now, k) == {x} && x != k
  {
  }

  lemma UnsettledStay(setup: Setup, l: Ledger, l1: Ledger, now: Time)
    requires Shrunk(setup, l, l1, now) && forall id <- l.events :: !Settled(l.events[id])
    ensures l1.events == l.events
  {
    assert l1.events.Keys == l.events.Keys;
  }

  lemma OneIsLeft(setup: Setup, l1: Ledger, now: Time, x: Key, k: Key)
    requires l1.events.Keys == {x, k} && x !in Backlog(setup, l1, now) && k in Backlog(setup, l1, now)
    ensures Backlog(setup, l1, now) == {k}
  {
    assert Backlog(setup, l1, now) <= l1.events.Keys;
  }

  /** A pass as a relation between the ledgers before and after it. */
  ghost predicate PassEffect(setup: Setup, l: Ledger, l1: Ledger, now: Time, limit: nat)
    requires ValidSetup(setup)
  {
    Shrunk(setup, l, l1, now) && forall k <- Backlog(setup, l, now) :: Taken(setup, l, l1, now, limit, k)
  }

  lemma PassMoves(setup: Setup, l: Ledger, pass: Pass, limit: int, l1: Ledger)
    requires ValidSetup(setup) && Fresh(setup, l, pass.now) && GoodPass(setup, pass, limit)
             && l1 == Cycled(setup, l, pass, limit)
    ensures limit >= 1 && PassEffect(setup, l, l1, pass.now, limit)
  {
    CycleExports(setup, l, pass.now, limit, pass.receiptId, pass.until);
    forall k | k in Backlog(setup, l, pass.now) ensures Taken(setup, l, l1, pass.now, limit, k) {
      PassTakes(setup, l, pass.now, limit, pass.receiptId, pass.until, k);
    }
    CycleProgress(setup, l, pass.now, limit, pass.receiptId, pass.until);
  }

  lemma EffectOn(setup: Setup, l: Ledger, l1: Ledger, now: Time, limit: nat, k: Key)
    requires ValidSetup(setup) && PassEffect(setup, l, l1, now, limit) && k in Backlog(setup, l, now)
    ensures k in Backlog(setup, l1, now) <==> |Ahead(setup, l, now, k)| >= limit
    ensures Bundled(setup, l, now, limit, k) <==> |Ahead(setup, l, now, k)| < limit
  {
    assert Taken(setup, l, l1, now, limit, k);
  }

  lemma StarvingEffect(setup: Setup, l: Ledger, l1: Ledger, now: Time, limit: nat, x: Key, k: Key)
    requires ValidSetup(setup) && limit == 1 && PassEffect(setup, l, l1, now, limit) && x in Backlog(setup, l, now)
             && k in Backlog(setup, l, now)
    requires Ahead(setup, l, now, x) == {} && Ahead(setup, l, now, k) == {x}
    ensures !Bundled(setup, l, now, limit, k) && x !in Backlog(setup, l1, now) && k in Backlog(setup, l1, now)
  {
    EffectOn(setup, l, l1, now, limit, x);
    EffectOn(setup, l, l1, now, limit, k);
  }

  lemma StarvingCycle(setup: Setup, l: Ledger, now: Time, limit: nat, x: Key, k: Key, l1: Ledger)
    requires ValidSetup(setup) && limit == 1 && Pair(setup, l, now, x, k) && PassEffect(setup, l, l1, now, limit)
    ensures !Bundled(setup, l, now, limit, k) && Backlog(setup, l1, now) == {k} && l1.events == l.events
  {
    OneAhead(setup, l, now, x, k);
    StarvingEffect(setup, l, l1, now, limit, x, k);
    UnsettledStay(setup, l, l1, now);
    OneIsLeft(setup, l1, now, x, k);
  }

  lemma EarlierIsRetried(setup: Setup, l: Ledger, now: Time, x: Key, k: Key)
    requires ValidSetup(setup) && l.events.Keys == {x, k} && Before(setup.rank, l.events, x, k)
             && Eligible(l.events[x], now)
    ensures AfterClaim(setup, l, now) == ClaimRow(l, x, now)
  {
    assert x in EligibleKeys(l, now);
    assert Least(setup.rank, l.events, EligibleKeys(l, now), x);
    LeastIsFirst(setup.rank, l.events, EligibleKeys(l, now), x);
  }

  lemma RetriedIsStarving(setup: Setup, l1: Ledger, now: Time, x: Key, k: Key)
    requires l1.events.Keys == {x, k} && Before(setup.rank, l1.events, x, k) && Backlog(setup, l1, now) == {k}
             && now >= 0.0
    requires !Settled(l1.events[x]) && !Settled(l1.events[k]) && Fresh(setup, ClaimRow(l1, x, now), now + 300.0)
    ensures Starving(setup, ClaimRow(l1, x, now), now + 300.0, x, k)
  {
    var l2 := ClaimRow(l1, x, now);
    DelayBounds(l1.events[x].attempts + 1);
    assert x !in Backlog(setup, l1, now);
    assert l2.events[x].attempts == l1.events[x].attempts + 1;
    assert NeedsExport(setup, l2, x, now + 300.0) && NeedsExport(setup, l2, k, now + 300.0);
  }

  lemma RetryIsGood(setup: Setup, now: Time)
    requires ValidSetup(setup) && now >= 0.0
    ensures GoodPass(setup, ExportAndRetry(setup, now), 1)
  {
  }

  lemma RetryRuns(setup: Setup, l1: Ledger, now: Time, x: Key, k: Key)
    requires ValidSetup(setup) && l1.events.Keys == {x, k} && Before(setup.rank, l1.events, x, k)
             && Eligible(l1.events[x], now)
    ensures Run(setup, l1, [ClaimNext(now)]) == ClaimRow(l1, x, now)
  {
    EarlierIsRetried(setup, l1, now, x, k);
    assert [ClaimNext(now)][1..] == [];
  }

  ghost function StarvingAt(setup: Setup, now: Time, x: Key, k: Key): iset<Ledger> {
    iset l | Starving(setup, l, now, x, k)
  }

  lemma StarvingGoesOn(setup: Setup, l: Ledger, pass: Pass, now: Time, x: Key, k: Key, l2: Ledger)
    requires ValidSetup(setup) && l in StarvingAt(setup, now, x, k) && pass == ExportAndRetry(setup, now)
    requires l2 == Run(setup, Cycled(setup, l, pass, 1), pass.ops)
    ensures GoodPass(setup, pass, 1) && Fresh(setup, l, now) && Starves(setup, l, pass, k)
            && l2 in StarvingAt(setup, now + 300.0, x, k)
  {
    var l1 := Cycled(setup, l, pass, 1);
    RetryIsGood(setup, now);
    PassMoves(setup, l, pass, 1, l1);
    StarvingCycle(setup, l, now, 1, x, k, l1);
    RetryRuns(setup, l1, now, x, k);
    NextIsFresh(setup, l, pass, 1, now + 300.0);
    RetriedIsStarving(setup, l1, now, x, k);
  }

  lemma OnePassMore(setup: Setup, l: Ledger, pass: Pass, ls: seq<Ledger>, passes: seq<Pass>, limit: int)
    requires ValidSetup(setup) && Fresh(setup, l, pass.now) && GoodPass(setup, pass, limit)
             && Passes(setup, ls, passes, limit)
    requires ls[0] == Run(setup, Cycled(setup, l, pass, limit), pass.ops)
    requires passes != [] ==> pass.now < passes[0].now
    ensures Passes(setup, [l] + ls, [pass] + passes, limit)
  {
    var ls1, passes1 := [l] + ls, [pass] + passes;
    forall i | 0 <= i < |passes1|
      ensures GoodPass(setup, passes1[i], limit) && Follows(setup, ls1[i], passes1[i], limit, ls1[i + 1])
    {
      assert i > 0 ==>
             passes1[i] == passes[i - 1] && ls1[i] == ls[i - 1]
                 && Follows(setup, ls[i - 1], passes[i - 1], limit, ls[i]);
    }
  }

  ghost predicate Starves(setup: Setup, l: Ledger, pass: Pass, k: Key)
    requires ValidSetup(setup)
  {
    k in Backlog(setup, l, pass.now) && !Bundled(setup, l, pass.now, 1, k)
  }

  /** Passes of one row each, beginning at this clock value, none of which reaches row k. */
  ghost predicate AllStarve(setup: Setup, ls: seq<Ledger>, passes: seq<Pass>, now: Time, k: Key)
    requires ValidSetup(setup)
  {
    && Passes(setup, ls, passes, 1) && (passes != [] ==> passes[0].now == now)
    && forall i :: 0 <= i < |passes| ==> Starves(setup, ls[i], passes[i], k)
  }

  lemma NoneStarves(setup: Setup, l: Ledger, now: Time, k: Key) returns (ls: seq<Ledger>, passes: seq<Pass>)
    requires ValidSetup(setup)
    ensures AllStarve(setup, ls, passes, now, k) && |passes| == 0 && ls[0] == l
  {
    ls, passes := [l], [];
  }

  lemma OneMoreStarves(setup: Setup, l: Ledger, pass: Pass, ls1: seq<Ledger>, passes1: seq<Pass>, now: Time, k: Key)
    returns (ls: seq<Ledger>, passes: seq<Pass>)
    requires ValidSetup(setup) && Fresh(setup, l, pass.now) && GoodPass(setup, pass, 1) && Starves(setup, l, pass, k)
    requires AllStarve(setup, ls1, passes1, now, k) && pass.now < now
    requires ls1[0] == Run(setup, Cycled(setup, l, pass, 1), pass.ops)
    ensures AllStarve(setup, ls, passes, pass.now, k) && |passes| == |passes1| + 1 && ls[0] == l
  {
    ls, passes := [l] + ls1, [pass] + passes1;
    OnePassMore(setup, l, pass, ls1, passes1, 1);
    assert forall i :: 0 < i < |passes| ==> ls[i] == ls1[i - 1] && passes[i] == passes1[i - 1];
  }

  /** From such a ledger, exports of one row five minutes apart never reach the later one. */
  lemma {:induction false} StarvesOn(setup: Setup, l: Ledger, now: Time, x: Key, k: Key, n: nat)
    returns (ls: seq<Ledger>, passes: seq<Pass>)
    requires ValidSetup(setup) && l in StarvingAt(setup, now, x, k)
    ensures AllStarve(setup, ls, passes, now, k) && |passes| == n && ls[0] == l
    decreases n
  {
    if n == 0 {
      ls, passes := NoneStarves(setup, l, now, k);
      return;
    }
    var pass := ExportAndRetry(setup, now);
    var l2 := Run(setup, Cycled(setup, l, pass, 1), pass.ops);
    StarvingGoesOn(setup, l, pass, now, x, k, l2);
    var ls1, passes1 := StarvesOn(setup, l2, now + 300.0, x, k, n - 1);
    ls, passes := OneMoreStarves(setup, l, pass, ls1, passes1, now + 300.0, k);
  }

  /** A started unit whose journal cursor this is. */
  function StartedAt(cursor: string): Event {
    Event(BOOT, cursor, "7", "u.service", "start", 0, "done")
  }

  function ReadAt(cursor: string, now: Time): Op {
    Ingest([Record(Some(cursor), Some(StartedAt(cursor)))], {"u.service"}, now, 0.0)
  }

  lemma OneIsRead(setup: Setup, l: Ledger, cursor: string, now: Time)
    requires ValidSetup(setup) && |l.events| < setup.capacity && l.kind in {None, Some("service-control")}
    requires l.units in {None, Some({"u.service"})} && StartedAt(cursor).Id() !in Known(l)
    ensures var l1 := Apply(setup, l, ReadAt(cursor, now));
            && l1.events == l.events[StartedAt(cursor).Id() := Obligation(Service(StartedAt(cursor)), now, now)]
            && l1.kind == Some("service-control") && l1.units == Some({"u.service"}) && SameRest(l, l1)
               && l1.versions == l.versions
  {
    var rows := [Record(Some(cursor), Some(StartedAt(cursor)))];
    var row := Obligation(Service(StartedAt(cursor)), now, now + 0.0);
    assert AddEvent(setup.capacity, l.events, l.archived.Keys, rows[0], now, now + 0.0)
           == Success(l.events[StartedAt(cursor).Id() := row]);
    assert rows[1..] == [];
    assert AddEvents(setup.capacity, l.events, l.archived.Keys, rows, now, now + 0.0)
           == Success(l.events[StartedAt(cursor).Id() := row]);
  }

  lemma RunOfTwo(setup: Setup, l: Ledger, first: Op, second: Op)
    requires ValidSetup(setup)
    ensures Run(setup, l, [first, second]) == Apply(setup, Apply(setup, l, first), second)
  {
    var ops := [first, second];
    assert ops[1..] == [second] && ops[1..][1..] == [];
    assert Run(setup, Apply(setup, l, first), [second]) == Run(setup, Apply(setup, Apply(setup, l, first), second), []);
  }

  lemma TwoAreRead(setup: Setup) returns (ops: seq<Op>, l: Ledger)
    requires ValidSetup(setup) && setup.capacity >= 2
    ensures l == Run(setup, EMPTY, ops) && l.versions == map[]
    ensures Starving(setup, l, 1.0, StartedAt("a").Id(), StartedAt("b").Id())
  {
    ops := [ReadAt("a", 0.0), ReadAt("b", 1.0)];
    var l1 := Apply(setup, EMPTY, ops[0]);
    l := Apply(setup, l1, ops[1]);
    OneIsRead(setup, EMPTY, "a", 0.0);
    OneIsRead(setup, l1, "b", 1.0);
    RunOfTwo(setup, EMPTY, ops[0], ops[1]);
    RunKeeps(setup, EMPTY, ops);
    TwoStarve(setup, l1, l, StartedAt("a"), StartedAt("b"));
  }

  lemma TwoStarve(setup: Setup, l1: Ledger, l: Ledger, first: Event, second: Event)
    requires ValidSetup(setup) && Inv(setup, l) && l.versions == map[] && l.exports == map[]
             && first.Id() != second.Id()
    requires l1.events == map[first.Id() := Obligation(Service(first), 0.0, 0.0)]
    requires l.events == l1.events[second.Id() := Obligation(Service(second), 1.0, 1.0)]
    ensures Starving(setup, l, 1.0, first.Id(), second.Id())
  {
    TwoNew(setup, l, first.Id(), second.Id());
  }

  lemma TwoNew(setup: Setup, l: Ledger, x: Key, k: Key)
    requires l.events.Keys == {x, k} && l.versions == map[]
    ensures Backlog(setup, l, 1.0) == {x, k}
  {
  }

  /**
   * Old rows can starve a later one: in every deployment that can hold two rows there are runs of any length
   * in which each pass exports an earlier row that is still undelivered, each retry changes it again, and a
   * row that was never exported waits at every pass and is in no bundle.
   */
  lemma OldRowsMayStarveALaterOne(setup: Setup, n: nat)
    returns (ops: seq<Op>, ls: seq<Ledger>, passes: seq<Pass>, k: Key)
    requires ValidSetup(setup) && setup.capacity >= 2
    ensures |passes| == n && Passes(setup, ls, passes, 1) && ls[0] == Run(setup, EMPTY, ops) && k !in ls[0].versions
    ensures forall i :: 0 <= i < n ==> WaitsAt(setup, ls, passes, k, i) && !BundledAt(setup, ls, passes, 1, k, i)
  {
    var l;
    ops, l := TwoAreRead(setup);
    k := StartedAt("b").Id();
    ls, passes := StarvesOn(setup, l, 1.0, StartedAt("a").Id(), k, n);
    forall i | 0 <= i < n ensures WaitsAt(setup, ls, passes, k, i) && !BundledAt(setup, ls, passes, 1, k, i) {
      assert Starves(setup, ls[i], passes[i], k);
    }
  }
}
