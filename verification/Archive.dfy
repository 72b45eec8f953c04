/** The evidence archive and the probe monitor, updating a shared store in place. */
module Archiving {
  import opened Common
  import opened AuditLedger
  import opened LedgerInvariant
  import opened RowOrder
  import opened AuditStore
  import H = Hysteresis

  /** The rows still to prune, given those done: a loop state of `prune`. */
  ghost predicate Pruning(setup: Setup, l0: Ledger, l: Ledger, b: Bundle, rest: seq<Row>, now: Time, removed: nat) {
    PruneRows(setup, l0, b, b.events, now) ==
    match PruneRows(setup, l, b, rest, now)
    case Success(p) => Success((p.0, removed + p.1))
    case Failure(e) => Failure(e)
  }

  lemma PruningStep(setup: Setup, l0: Ledger, l: Ledger, b: Bundle, rest: seq<Row>, now: Time, removed: nat)
    requires rest != [] && Pruning(setup, l0, l, b, rest, now, removed)
    requires rest[0].id in l.events ==> rest[0].id !in l.archived
    ensures if Removable(setup, l, rest[0], now)
            then Pruning(setup, l0, l.(events := l.events - {rest[0].id}, archived := l.archived[rest[0].id := b],
                                       versions := l.versions - {rest[0].id}), b, rest[1..], now, removed + 1)
            else Pruning(setup, l0, l, b, rest[1..], now, removed)
  {
  }

  lemma DeliverKeeps(setup: Setup, l: Ledger, b: Bundle, reply: SinkReply, clock: Time)
    requires Inv(setup, l)
    ensures Inv(setup, AuditLedger.Deliver(setup, l, b, reply, clock).0)
  {
    var (l1, r) := AuditLedger.Deliver(setup, l, b, reply, clock);
    if l1 != l {
      ReceiveKeeps(setup, l, b, r.value, clock);
    }
  }

  class Archive {
    const store: Store

    constructor (store: Store)
      ensures this.store == store
    {
      this.store := store;
    }

    method Prepare(now: Time, limit: int) returns (r: Result<Option<Bundle>, Error>)
      requires store.Valid()
      modifies store`exports
      ensures store.Valid()
      ensures (store.State(), r) == AuditLedger.Prepare(store.setup, old(store.State()), now, limit)
    {
      ghost var l := store.State();
      ExportKeeps(store.setup, l, now, limit);
      if now < 0.0 {
        return Failure(BadTime);
      }
      if !(1 <= limit <= 1000) {
        return Failure(BadLimit);
      }
      var open := set b | b in store.exports && store.exports[b].payload.Some?;
      assert open == OpenExports(l);
      if open != {} {
        var b :| b in open;
        return Success(Some(b));
      }
      ghost var keys;
      var rows;
      rows, keys := SelectRows(now, limit);
      if rows == [] {
        NoRowsNoBacklog(store.setup, l, now, limit, keys);
        return Success(None);
      }
      var b := Bundle(store.setup.sink, now, store.kind, store.units, store.cursor, rows);
      if b in store.exports {
        return Failure(DuplicateExport);
      }
      store.exports := store.exports[b := Export(Some(b), None, now)];
      r := Success(Some(b));
    }

    /** Scan the events in order and keep those that changed or are due, up to the limit. */
    method SelectRows(now: Time, limit: nat) returns (rows: seq<Row>, ghost keys: seq<Key>)
      requires ValidSetup(store.setup) && limit > 0
      ensures keys == FirstKeys(store.setup.rank, store.events, Backlog(store.setup, store.State(), now), limit)
      ensures rows == RowsOf(store.events, keys)
    {
      rows, keys := [], [];
      var todo := store.events.Keys;
      ghost var l := store.State();
      while todo != {} && |rows| < limit
        invariant Scanned(store.setup, l, now, todo, keys)
        invariant rows == RowsOf(store.events, keys) && |keys| <= limit
        decreases |todo|
      {
        var id := store.First(todo);
        ScanStep(store.setup, l, now, todo, keys, id);
        var event := store.events[id];
        if !(id in store.versions && store.versions[id] == event) || DueForRetention(store.setup, event, now) {
          rows, keys := rows + [event], keys + [id];
        }
        todo := todo - {id};
      }
      FirstUnique(store.setup.rank, store.events, Backlog(store.setup, l, now), keys, limit);
    }

    /** One delivery attempt: `reply` is what the sink returned, `clock` the time read after it did. */
    method Deliver(b: Bundle, reply: SinkReply, clock: Time) returns (r: Result<Retention, Error>)
      requires store.Valid()
      modifies store`exports, store`versions
      ensures store.Valid()
      ensures (store.State(), r) == AuditLedger.Deliver(store.setup, old(store.State()), b, reply, clock)
    {
      DeliverKeeps(store.setup, store.State(), b, reply, clock);
      if b !in store.exports {
        return Failure(UnknownExport);
      }
      var e := store.exports[b];
      if e.receipt.Some? {
        if clock < 0.0 {
          return Failure(BadTime);
        }
        if !LongEnough(store.setup, e.created, e.receipt.value.until, clock) {
          return Failure(ShortHorizon);
        }
        return Success(e.receipt.value);
      }
      if e.payload.None? {
        return Failure(MissingPayload);
      }
      if e.payload.value != b {
        return Failure(BytesChanged);
      }
      if !Acceptable(store.setup, b, reply) {
        return Failure(BadReceipt);
      }
      if reply.until.None? || reply.until.value < 0.0 || clock < 0.0 {
        return Failure(BadTime);
      }
      if !LongEnough(store.setup, e.created, reply.until.value, clock) {
        return Failure(ShortHorizon);
      }
      var receipt := Retention(b, store.setup.sink, reply.receiptId.s, reply.until.value);
      store.exports := store.exports[b := e.(receipt := Some(receipt))];
      ghost var versions := store.versions;
      for i := 0 to |b.events|
        invariant store.exports == old(store.exports)[b := e.(receipt := Some(receipt))]
        invariant SaveVersions(store.versions, b.events[i..]) == SaveVersions(versions, b.events)
      {
        store.versions := store.versions[b.events[i].id := b.events[i]];
        assert b.events[i..][0] == b.events[i] && b.events[i..][1..] == b.events[i + 1..];
      }
      r := Success(receipt);
    }

    method Prune(b: Bundle, now: Time) returns (r: Result<nat, Error>)
      requires store.Valid()
      modifies store`events, store`archived, store`versions, store`exports
      ensures store.Valid()
      ensures match AuditLedger.Prune(store.setup, old(store.State()), b, now)
              case Success(p) => r == Success(p.1) && store.State() == p.0
              case Failure(e) => r == Failure(e) && store.State() == old(store.State())
    {
      RemoveKeeps(store.setup, store.State(), b, now);
      if now < 0.0 {
        return Failure(BadTime);
      }
      if b !in store.exports || store.exports[b].receipt.None? {
        return Failure(NotAcknowledged);
      }
      var e := store.exports[b];
      if e.receipt.value.until < now + store.setup.retention || now < e.created {
        return Failure(ShortHorizon);
      }
      if e.payload.None? {
        return Success(0);
      }
      assert SoundExport(store.setup, b, e);
      var removed := RemoveRows(b, now);
      store.exports := store.exports[b := e.(payload := None)];
      r := Success(removed);
    }

    /** The pruning loop. The primary key of the tombstones cannot be violated. */
    method RemoveRows(b: Bundle, now: Time) returns (removed: nat)
      requires store.events.Keys !! store.archived.Keys
      modifies store`events, store`archived, store`versions
      ensures PruneRows(store.setup, old(store.State()), b, b.events, now) == Success((store.State(), removed))
    {
      removed := 0;
      ghost var l0 := store.State();
      for i := 0 to |b.events|
        invariant store.events.Keys !! store.archived.Keys && store.exports == l0.exports
        invariant Pruning(store.setup, l0, store.State(), b, b.events[i..], now, removed)
      {
        var saved := b.events[i];
        assert b.events[i..][0] == saved && b.events[i..][1..] == b.events[i + 1..];
        PruningStep(store.setup, l0, store.State(), b, b.events[i..], now, removed);
        if saved.id in store.events && store.events[saved.id] == saved && DueForRetention(store.setup, saved, now) {
          assert saved.id !in store.archived;
          store.archived := store.archived[saved.id := b];
          store.events := store.events - {saved.id};
          store.versions := store.versions - {saved.id};
          removed := removed + 1;
        }
      }
    }
  }

  /** The scan of `prepare`: chosen rows, then rows not looked at, in order. */
  ghost predicate Scanned(setup: Setup, l: Ledger, now: Time, todo: set<Key>, keys: seq<Key>) {
    && todo <= l.events.Keys && (forall k <- keys :: k in Backlog(setup, l, now) && k !in todo)
    && (forall k <- Backlog(setup, l, now) :: k in keys || k in todo)
    && Ascending(setup.rank, l.events, keys)
    && forall k <- keys, x <- todo :: Before(setup.rank, l.events, k, x)
  }

  lemma ScanStep(setup: Setup, l: Ledger, now: Time, todo: set<Key>, keys: seq<Key>, id: Key)
    requires Scanned(setup, l, now, todo, keys) && Least(setup.rank, l.events, todo, id)
    ensures Scanned(setup, l, now, todo - {id}, if NeedsExport(setup, l, id, now) then keys + [id] else keys)
  {
    var more := keys + [id];
    assert forall k <- more :: k in keys || k == id;
    if NeedsExport(setup, l, id, now) {
      forall i, j | 0 <= i < j < |more| ensures Before(setup.rank, l.events, more[i], more[j]) {
        if j == |keys| { assert more[i] in keys; }
      }
    }
  }

  lemma NoRowsNoBacklog(setup: Setup, l: Ledger, now: Time, limit: nat, keys: seq<Key>)
    requires ValidSetup(setup) && limit > 0 && keys == []
    requires keys == FirstKeys(setup.rank, l.events, Backlog(setup, l, now), limit)
    ensures Backlog(setup, l, now) == {}
  {
  }

  class Monitor {
    const store: Store
    const probe: string
    const policy: H.Policy

    constructor (store: Store, probe: string, policy: H.Policy)
      ensures this.store == store && this.probe == probe && this.policy == policy
    {
      this.store, this.probe, this.policy := store, probe, policy;
    }

    method Observe(outcome: string, now: Time) returns (r: Result<H.Memory, Error>)
      requires store.Valid()
      modifies store`monitors, store`events
      ensures store.Valid()
      ensures match AuditLedger.Observe(store.setup, old(store.State()), probe, policy, H.Sample(outcome, now))
              case Success(l1) => store.State() == l1
                                  && r == Success(H.Advance(policy, MemoryOf(old(store.State()), probe),
                                     LastSampleOf(old(store.State()), probe), H.Sample(outcome, now)).0)
              case Failure(e) => store.State() == old(store.State()) && r == Failure(e)
    {
      ObserveKeeps(store.setup, store.State(), probe, policy, H.Sample(outcome, now));
      if outcome !in H.OUTCOMES || now < 0.0 {
        return Failure(InvalidObservation);
      }
      var m := H.FRESH;
      var last: Option<Time> := None;
      if probe in store.monitors {
        m, last := store.monitors[probe].memory, Some(store.monitors[probe].lastSample);
      }
      if last.Some? && now <= last.value {
        return Failure(StaleSample);
      }
      ProbeFresh(store.State(), probe);
      m := Count(m, last, outcome, now);
      r := Commit(m, outcome, now);
    }

    /** Decide on the counted evidence, and write the outcome in one transaction. */
    method Commit(counted: H.Memory, outcome: string, now: Time) returns (r: Result<H.Memory, Error>)
      requires Probe(probe, counted.sequence + 1) !in store.events
      modifies store`monitors, store`events
      ensures var decided := H.Decide(policy, counted, H.Sample(outcome, now));
              match CommitSample(store.setup, old(store.State()), probe, decided, now)
              case Success(l1) => store.State() == l1 && r == Success(decided.0)
              case Failure(e) => store.State() == old(store.State()) && r == Failure(e)
    {
      var m := counted;
      var threshold := if outcome == H.HEALTHY then policy.recoverAfter else policy.failAfter;
      var evidence := if m.active == H.HEALTHY && outcome != H.HEALTHY then m.failureCount else m.count;
      if outcome != m.active && evidence >= threshold {
        if |store.events| >= store.setup.capacity {
          return Failure(CapacityReached);
        }
        var row := TransitionRow(probe, H.Emission(m.sequence + 1, outcome, m.active, now));
        m := m.(active := outcome, sequence := m.sequence + 1);
        // The number is new, so the primary key is free.
        assert row.id !in store.events;
        store.events := store.events[row.id := row];
      }
      store.monitors := store.monitors[probe := Tracked(m, now)];
      r := Success(m);
    }

    /** Reset the evidence across a gap, then count the sample. */
    method Count(before: H.Memory, last: Option<Time>, outcome: string, now: Time) returns (m: H.Memory)
      ensures m == H.Counted(policy, before, last, H.Sample(outcome, now))
    {
      m := before;
      if last.Some? && now - last.value > policy.maxGap {
        m := m.(candidate := None, count := 0, failureCount := 0);
      }
      m := m.(count := if m.candidate == Some(outcome) then m.count + 1 else 1);
      m := m.(candidate := Some(outcome));
      m := m.(failureCount := if outcome == H.HEALTHY then 0 else m.failureCount + 1);
    }
  }
}
