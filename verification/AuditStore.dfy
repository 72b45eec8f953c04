/**
 * The ledger's processes as they update their tables in place: the audit store, the archive
 * and the probe monitor (service_audit.py, evidence_archive.py, reachability.py). Every
 * method is proved against the transaction of module AuditLedger that it performs.
 */
module AuditStore {
  import opened Common
  import opened Attribution
  import opened AuditLedger
  import opened LedgerInvariant
  import opened RowOrder
  import opened Dispatching
  import H = Hysteresis

  /** The ledgers that meet the invariant. */
  ghost function SoundLedgers(setup: Setup): iset<Ledger> {
    iset l | Inv(setup, l)
  }

  lemma ClaimedSound(setup: Setup, l: Ledger, l1: Ledger)
    requires Inv(setup, l) && l1 == l.(kind := l1.kind)
    ensures l1 in SoundLedgers(setup)
  {
    Unchanged(setup, l, l1);
  }

  /** A batch goes on from the claimed store as it would have from the one before. */
  lemma ClaimComesFirst(setup: Setup, l: Ledger, rows: seq<Record>, scope: set<string>, now: Time, grace: Time)
    requires |rows| <= 2000
    ensures var l1 := Claimed(l, "service-control");
            if l1.kind != Some("service-control")
            then IngestBatch(setup, l, rows, scope, now, grace) == Failure(KindMismatch)
                && AfterIngest(setup, l, rows, scope, now, grace) == l1
            else
              var r := IngestBatch(setup, l1, rows, scope, now, grace);
              && IngestBatch(setup, l, rows, scope, now, grace) == r
              && (r.Failure? && r.error != BatchTooLarge ==> AfterIngest(setup, l, rows, scope, now, grace) == l1)
  {
  }

  lemma IngestSound(setup: Setup, l: Ledger, l1: Ledger, rows: seq<Record>, scope: set<string>, now: Time, grace: Time)
    requires l in SoundLedgers(setup) && IngestBatch(setup, l, rows, scope, now, grace) == Success(l1)
    ensures l1 in SoundLedgers(setup)
  {
    IngestKeeps(setup, l, rows, scope, now, grace);
  }

  lemma ScopeRefused(setup: Setup, l: Ledger, rows: seq<Record>, scope: set<string>, now: Time, grace: Time)
    requires |rows| <= 2000 && l.kind == Some("service-control") && l.units !in {None, Some(scope)}
    ensures IngestBatch(setup, l, rows, scope, now, grace) == Failure(ScopeChanged)
  {
  }

  /** What the row loop makes of a batch in scope. */
  lemma RowsDecide(setup: Setup, l: Ledger, rows: seq<Record>, scope: set<string>, now: Time, grace: Time)
    requires |rows| <= 2000 && l.kind == Some("service-control") && l.units in {None, Some(scope)}
    ensures IngestBatch(setup, l, rows, scope, now, grace) ==
            match AddEvents(setup.capacity, l.events, l.archived.Keys, rows, now, now + grace)
            case Failure(e) => Failure(e)
            case Success(events) =>
                Success(l.(units := Some(scope), events := events, cursor := CursorAfter(l.cursor, rows)))
  {
  }

  lemma ReassessedAll(l: Ledger, l1: Ledger, receipts: seq<JobReceipt>)
    requires |receipts| <= 10000 && l.kind == Some("service-control")
    requires l1 == l.(events := map id | id in l.events :: Reassessed(l.events[id], receipts))
    ensures ReconcileAll(l, receipts) == Success(l1)
  {
    assert l1.events == map id | id in l.events ::
           l.events[id].(attribution := AttributedPayload(l.events[id].payload, receipts));
  }

  lemma ReconcileSound(setup: Setup, l: Ledger, l1: Ledger, receipts: seq<JobReceipt>)
    requires l in SoundLedgers(setup) && ReconcileAll(l, receipts) == Success(l1)
    ensures l1 in SoundLedgers(setup)
  {
    ReconcileKeeps(setup, l, receipts);
  }

  /** A reconciliation goes on from the claimed store as it would have from the one before. */
  lemma ReconcileAfterClaim(l: Ledger, receipts: seq<JobReceipt>)
    ensures var l1 := Claimed(l, "service-control");
            if l1.kind != Some("service-control") then ReconcileAll(l, receipts) == Failure(KindMismatch)
            else if |receipts| > 10000 then ReconcileAll(l, receipts) == Failure(BatchTooLarge)
            else ReconcileAll(l, receipts) == ReconcileAll(l1, receipts)
  {
  }

  lemma DispatchSound(setup: Setup, l: Ledger, l1: Ledger, sender: Sender, now: Time, rounds: nat, attempted: seq<Key>,
                      confirmed: nat)
    requires l in SoundLedgers(setup) && Dispatched(setup, l, l1, sender, now, rounds, attempted, confirmed)
    ensures l1 in SoundLedgers(setup)
  {
    DispatchKeeps(setup, l, l1, sender, now, rounds, attempted, confirmed);
  }

  class Store {
    const setup: Setup
    var kind: Option<string>
    var units: Option<set<string>>
    var cursor: Option<string>
    var events: map<Key, Row>
    var archived: map<Key, Bundle>
    var exports: map<Bundle, Export>
    var versions: map<Key, Row>
    var monitors: map<string, Tracked>

    ghost function State(): Ledger reads this {
      Ledger(kind, units, cursor, events, archived, exports, versions, monitors)
    }

    ghost predicate Valid() reads this {
      ValidSetup(setup) && State() in SoundLedgers(setup)
    }

    constructor (setup: Setup)
      requires ValidSetup(setup)
      ensures Valid() && this.setup == setup && State() == EMPTY
    {
      this.setup := setup;
      kind, units, cursor := None, None, None;
      events, archived, exports, versions, monitors := map[], map[], map[], map[], map[];
    }

    /** Its own transaction: the claim stays even if the caller's transaction later rolls back. */
    method Claim(wanted: string) returns (ok: bool)
      requires Valid()
      modifies this`kind
      ensures Valid()
      ensures ok <==> ClaimKind(old(State()), wanted).Success?
      ensures State() == Claimed(old(State()), wanted)
    {
      ClaimedSound(setup, State(), Claimed(State(), wanted));
      if kind.None? {
        kind := Some(wanted);
      }
      ok := kind == Some(wanted);
    }

    method Ingest(rows: seq<JournalRow>, scope: set<string>, now: Time, grace: Time) returns (r: Result<(), Error>)
      requires Valid()
      modifies this`kind, this`units, this`cursor, this`events
      ensures Valid()
      ensures match IngestBatch(setup, old(State()), ReadAll(rows, scope), scope, now, grace)
              case Success(l1) => r == Success(()) && State() == l1
              case Failure(e) =>
                  r == Failure(e)
                      && State() == AfterIngest(setup, old(State()), ReadAll(rows, scope), scope, now, grace)
    {
      if |rows| > 2000 {
        return Failure(BatchTooLarge);
      }
      ClaimComesFirst(setup, State(), ReadAll(rows, scope), scope, now, grace);
      var ok := Claim("service-control");
      if !ok {
        return Failure(KindMismatch);
      }
      ghost var claimed := State();
      r := IngestClaimed(rows, scope, now, grace);
      if r.Success? {
        IngestSound(setup, claimed, State(), ReadAll(rows, scope), scope, now, grace);
      }
    }

    /** The transaction of `ingest`: scope, rows and cursor commit together or not at all. */
    method IngestClaimed(rows: seq<JournalRow>, scope: set<string>, now: Time, grace: Time)
      returns (r: Result<(), Error>)
      requires |rows| <= 2000 && kind == Some("service-control")
      modifies this`units, this`cursor, this`events
      ensures match IngestBatch(setup, old(State()), ReadAll(rows, scope), scope, now, grace)
              case Success(l1) => r == Success(()) && State() == l1
              case Failure(e) => r == Failure(e) && State() == old(State()) && e != BatchTooLarge
    {
      ghost var before := State();
      if units.Some? && units.value != scope {
        ScopeRefused(setup, before, ReadAll(rows, scope), scope, now, grace);
        return Failure(ScopeChanged);
      }
      RowsDecide(setup, before, ReadAll(rows, scope), scope, now, grace);
      var failed := AddRows(rows, scope, now, now + grace);
      if failed.Some? {
        return Failure(failed.value);
      }
      units := Some(scope);
      r := Success(());
    }

    /** The row loop of `ingest`; a raise rolls the whole batch back. */
    method AddRows(rows: seq<JournalRow>, scope: set<string>, now: Time, next: Time) returns (failed: Option<Error>)
      modifies this`cursor, this`events
      ensures failed.Some? ==> failed.value in {InvalidCursor, CapacityReached}
      ensures match AddEvents(setup.capacity, old(events), archived.Keys, ReadAll(rows, scope), now, next)
              case Success(more) =>
                  failed == None && events == more && cursor == CursorAfter(old(cursor), ReadAll(rows, scope))
              case Failure(e) => failed == Some(e) && events == old(events) && cursor == old(cursor)
    {
      var cursor0, events0 := cursor, events;
      ghost var records := ReadAll(rows, scope);
      for i := 0 to |rows|
        invariant AddEvents(setup.capacity, events, archived.Keys, records[i..], now, next)
               == AddEvents(setup.capacity, events0, archived.Keys, records, now, next)
        invariant cursor == if i == 0 then cursor0 else records[i - 1].cursor
      {
        assert records[i..][0] == Read(rows[i], scope) && records[i..][1..] == records[i + 1..];
        if !ValidCursor(rows[i].cursor) {
          cursor, events := cursor0, events0;
          return Some(InvalidCursor);
        }
        var event := NormalizeEvent(rows[i], scope);
        if event.Some? && event.value.Id() !in events && event.value.Id() !in archived {
          if |events| >= setup.capacity {
            cursor, events := cursor0, events0;
            return Some(CapacityReached);
          }
          events := events[event.value.Id() := Obligation(Service(event.value), now, next)];
        }
        cursor := Some(rows[i].cursor.s);
      }
      failed := None;
    }

    method Reconcile(receipts: seq<JobReceipt>) returns (r: Result<(), Error>)
      requires Valid()
      modifies this`kind, this`events
      ensures Valid()
      ensures State() == AfterReconcile(old(State()), receipts)
      ensures match ReconcileAll(old(State()), receipts)
              case Success(_) => r == Success(())
              case Failure(e) => r == Failure(e)
    {
      ReconcileAfterClaim(State(), receipts);
      var ok := Claim("service-control");
      if !ok {
        return Failure(KindMismatch);
      }
      if |receipts| > 10000 {
        return Failure(BatchTooLarge);
      }
      ghost var claimed := State();
      AttributeRows(receipts);
      ReassessedAll(claimed, State(), receipts);
      ReconcileSound(setup, claimed, State(), receipts);
      r := Success(());
    }

    method AttributeRows(receipts: seq<JobReceipt>)
      modifies this`events
      ensures events == map id | id in old(events) :: Reassessed(old(events)[id], receipts)
    {
      var todo := events.Keys;
      while todo != {}
        invariant todo <= events.Keys == old(events).Keys
        invariant forall id <- old(events) ::
                    events[id] == if id in todo then old(events)[id] else Reassessed(old(events)[id], receipts)
        decreases |todo|
      {
        var id :| id in todo;
        var attribution := None;
        if events[id].payload.Service? {
          attribution := ExactAttribution(events[id].payload.event, receipts);
        }
        events := events[id := events[id].(attribution := attribution)];
        todo := todo - {id};
      }
    }

    /** SELECT ... ORDER BY created, id LIMIT 1 over some of the rows. */
    method First(keys: set<Key>) returns (m: Key)
      requires Injective(setup.rank) && keys <= events.Keys && keys != {}
      ensures Least(setup.rank, events, keys, m)
    {
      m :| m in keys;
      var todo := keys - {m};
      while todo != {}
        invariant todo <= keys && Least(setup.rank, events, keys - todo, m)
        decreases |todo|
      {
        var k :| k in todo;
        LeastExtends(setup.rank, events, keys - todo, m, k);
        assert keys - (todo - {k}) == keys - todo + {k};
        if Before(setup.rank, events, k, m) {
          m := k;
        }
        todo := todo - {k};
      }
      assert keys - todo == keys;
    }

    /** One call of `dispatch`; the n-th call of the sender answers with sender(n, payload). */
    method Dispatch(sender: Sender, now: Time, limit: int) returns (delivered: nat, ghost attempted: seq<Key>)
      requires Valid()
      modifies this`events
      ensures Valid()
      ensures Dispatched(setup, old(State()), State(), sender, now, Rounds(limit), attempted, delivered)
    {
      ghost var before := State();
      delivered, attempted := SendDue(sender, now, Rounds(limit));
      DispatchSound(setup, before, State(), sender, now, Rounds(limit), attempted, delivered);
    }

    /** The rounds of a call: attempt the first due obligation, as long as there is one. */
    method SendDue(sender: Sender, now: Time, rounds: nat) returns (delivered: nat, ghost attempted: seq<Key>)
      requires ValidSetup(setup)
      modifies this`events
      ensures Dispatched(setup, old(State()), State(), sender, now, rounds, attempted, delivered)
    {
      delivered := 0;
      ghost var ls: seq<Ledger>, tries: seq<Try> := [State()], [];
      var i := 0;
      while i < rounds
        invariant i <= rounds && |tries| == i && Trace(setup, sender, now, ls, tries)
        invariant ls[0] == old(State()) && ls[i] == State() && delivered == Confirmations(tries)
      {
        ghost var l := State();
        var due := set id | id in events && Eligible(events[id], now);
        assert due == EligibleKeys(l, now);
        if due == {} {
          break;
        }
        var id := First(due);
        var confirmed := Attempt(id, sender, now, i);
        ghost var t := Try(id, sender(i, l.events[id].payload));
        TraceGrows(setup, sender, now, ls, tries, t, State());
        ls, tries := ls + [State()], tries + [t];
        if confirmed {
          delivered := delivered + 1;
        }
        i := i + 1;
      }
      attempted := Ids(tries);
      TraceDispatches(setup, sender, now, rounds, ls, tries);
    }

    /** One round: commit the attempt, send, commit the outcome. */
    method Attempt(id: Key, sender: Sender, now: Time, call: nat) returns (confirmed: bool)
      requires id in events
      modifies this`events
      ensures var reply := sender(call, old(events)[id].payload);
              && confirmed == Confirms(reply, id)
              && State() == SettleRow(ClaimRow(old(State()), id, now), id, reply)
    {
      var r := events[id];
      events := events[id := r.(
        attempts := r.attempts + 1,
        nextAttempt := now + Delay(r.attempts + 1) as real,
        lastError := Some("delivery_unconfirmed"))];
      assert State() == ClaimRow(old(State()), id, now);
      var reply := sender(call, r.payload);
      confirmed := Confirms(reply, id);
      Record(id, reply, confirmed);
    }

    /** The second transaction of an attempt. */
    method Record(id: Key, reply: Reply, confirmed: bool)
      requires id in events && confirmed == Confirms(reply, id)
      modifies this`events
      ensures State() == SettleRow(old(State()), id, reply)
    {
      var r := events[id];
      if confirmed {
        events := events[id :=
            r.(delivered := true, receipt := Some(Delivery(id, reply.receiptId.s)), lastError := None)];
      } else if !r.delivered {
        events := events[id := r.(lastError := Some(
          if reply.Raised? then "transport_unconfirmed" else "receipt_missing_or_mismatched"))];
      }
    }
  }

  ghost function Reassessed(r: Row, receipts: seq<JobReceipt>): Row {
    r.(attribution := AttributedPayload(r.payload, receipts))
  }
}
