/** Journal normalization and exact job attribution (service_audit.py). */
module Attribution {
  import opened Common

  const ACTIONS := {"start", "stop", "restart", "reload", "try-restart"}
  const RESULTS := {"done", "failed", "timeout", "canceled", "dependency", "skipped"}

  /** One decoded journal record, restricted to the collected fields. */
  datatype JournalRow = JournalRow(
    pid: Field, comm: Field, unit: Field, jobType: Field, bootId: Field,
    jobId: Field, cursor: Field, realtime: Field, jobResult: Field)

  /** A normalized service event. MESSAGE, environment and caller extras never reach it. */
  datatype Event = Event(
    boot: string, cursor: string, job: string, unit: string, action: string, realtimeUs: nat, result: string)
  {
    function Id(): Key { Journal(boot, cursor) }
  }

  /** The persisted payload of an obligation: a service event or a reachability transition. */
  datatype Payload =
    | Service(event: Event)
    | Transition(probe: string, sequence: nat, state: string, previous: string, observedAt: Time)
  {
    /** The event_id the payload carries. */
    function Id(): Key {
      match this
      case Service(event) => event.Id()
      case Transition(probe, sequence, _, _, _) => Probe(probe, sequence)
    }
  }

  predicate ValidCursor(cursor: Field) {
    cursor.Text? && 0 < |cursor.s| <= 1024 && forall c <- cursor.s :: 32 as char <= c
  }

  function Decimal(s: string): nat
    requires Digits(s)
  {
    if s == "" then 0 else 10 * Decimal(s[..|s| - 1]) + (s[|s| - 1] as int - '0' as int)
  }

  predicate Normalizable(row: JournalRow, units: set<string>) {
    && row.pid == Text("1") && row.comm == Text("systemd")
    && TokenField(row.unit) && row.unit.s in units
    && row.jobType.Text? && row.jobType.s in ACTIONS
    && row.bootId.Text? && BootId(row.bootId.s)
    && !row.jobId.Other? && (row.jobId.Text? ==> |row.jobId.s| <= 20 && Digits(row.jobId.s))
    && row.realtime.Text? && 1 <= |row.realtime.s| <= 20 && Digits(row.realtime.s)
    && ValidCursor(row.cursor)
  }

  /** Only PID 1's own, well-formed records about a watched unit become events. */
  function NormalizeEvent(row: JournalRow, units: set<string>): Option<Event> {
    if !Normalizable(row, units) then None
    else Some(Event(
                row.bootId.s,
                row.cursor.s,
                if row.jobId.Text? then row.jobId.s else "",
                row.unit.s,
                row.jobType.s,
                Decimal(row.realtime.s),
                if row.jobResult.Text? && row.jobResult.s in RESULTS then row.jobResult.s else "unknown"))
  }

  /** What ingest reads off a journal row: its cursor if that is valid, and its event if it has one. */
  datatype Record = Record(cursor: Option<string>, event: Option<Event>)

  function Read(row: JournalRow, units: set<string>): Record {
    Record(if ValidCursor(row.cursor) then Some(row.cursor.s) else None, NormalizeEvent(row, units))
  }

  function ReadAll(rows: seq<JournalRow>, units: set<string>): seq<Record> {
    seq(|rows|, i requires 0 <= i < |rows| => Read(rows[i], units))
  }

  datatype JobReceipt = JobReceipt(
    bootId: Field, jobId: Field, unit: Field, action: Field, outcome: Field,
    operationId: Field, principal: Field, changeRef: Field, source: Field)

  datatype Identity = Identity(operationId: string, principal: string, changeRef: string, source: string)

  /** Actions whose job a receipt may explain: its own, and the two phases of a restart. */
  function Compatible(action: Field): set<string> {
    (if action.Text? && action.s in ACTIONS then {action.s} else {}) +
    (if action.Text? && action.s in {"restart", "try-restart"} then {"start", "stop"} else {})
  }

  predicate Qualifies(event: Event, receipt: JobReceipt) {
    && receipt.bootId == Text(event.boot) && receipt.jobId == Text(event.job) && receipt.unit == Text(event.unit)
    && event.action in Compatible(receipt.action) && receipt.outcome == Text("accepted")
    && TokenField(receipt.operationId) && TokenField(receipt.principal)
    && TokenField(receipt.changeRef) && TokenField(receipt.source)
  }

  function IdentityOf(receipt: JobReceipt): Identity
    requires TokenField(receipt.operationId) && TokenField(receipt.principal)
    requires TokenField(receipt.changeRef) && TokenField(receipt.source)
  {
    Identity(receipt.operationId.s, receipt.principal.s, receipt.changeRef.s, receipt.source.s)
  }

  /** Every identity claiming the job of an event. */
  ghost function Claimants(event: Event, receipts: seq<JobReceipt>): set<Identity> {
    set r | r in receipts && Qualifies(event, r) :: IdentityOf(r)
  }

  ghost function Sole<T>(s: set<T>): T
    requires |s| == 1
  {
    var x :| x in s;
    x
  }

  /** An event is attributed exactly when it names a job and one identity alone claims that job. */
  ghost function Attributed(event: Event, receipts: seq<JobReceipt>): (r: Option<Identity>) {
    if event.job != "" && |Claimants(event, receipts)| == 1 then
      Some(Sole(Claimants(event, receipts)))
    else None
  }

  function Elements<T>(xs: seq<T>): set<T> {
    set x | x in xs
  }

  lemma SoleMember<T>(s: set<T>, x: T)
    requires x in s && |s| == 1
    ensures s == {x}
  {
    assert |s - {x}| == 0;
  }

  lemma SeqOfOne<T>(xs: seq<T>)
    requires forall i, j :: 0 <= i < j < |xs| ==> xs[i] != xs[j]
    ensures |Elements(xs)| == |xs|
  {
    if xs != [] {
      var init, last := xs[..|xs| - 1], xs[|xs| - 1];
      SeqOfOne(init);
      assert xs == init + [last];
      assert Elements(xs) == Elements(init) + {last};
    }
  }

  /** The accumulating loop of exact_attribution, over a complete receipt list. */
  method ExactAttribution(event: Event, receipts: seq<JobReceipt>) returns (r: Option<Identity>)
    ensures r == Attributed(event, receipts)
  {
    if event.job == "" {
      return None;
    }
    var matches: seq<Identity> := [];
    for i := 0 to |receipts|
      invariant forall a, b :: 0 <= a < b < |matches| ==> matches[a] != matches[b]
      invariant Elements(matches) == Claimants(event, receipts[..i])
    {
      var receipt := receipts[i];
      assert receipts[..i + 1] == receipts[..i] + [receipt];
      if Qualifies(event, receipt) {
        var fields := IdentityOf(receipt);
        assert Claimants(event, receipts[..i + 1]) == Claimants(event, receipts[..i]) + {fields};
        assert forall m :: m in matches ==> m in Elements(matches);
        if fields !in matches {
          matches := matches + [fields];
        }
      } else {
        assert Claimants(event, receipts[..i + 1]) == Claimants(event, receipts[..i]);
      }
    }
    assert receipts[..|receipts|] == receipts;
    SeqOfOne(matches);
    assert forall m :: m in matches ==> m in Claimants(event, receipts);
    if |matches| == 1 {
      SoleMember(Claimants(event, receipts), matches[0]);
      r := Some(matches[0]);
    } else {
      r := None;
    }
  }

  /** Attribution is a function of the set of receipts: order and repetition do not matter. */
  lemma AttributionOfSet(event: Event, a: seq<JobReceipt>, b: seq<JobReceipt>)
    requires Elements(a) == Elements(b)
    ensures Attributed(event, a) == Attributed(event, b)
  {
    forall r ensures r in a <==> r in b {
      assert r in a <==> r in Elements(a);
    }
    assert Claimants(event, a) == Claimants(event, b);
  }

  /** Receipts added later can make an attribution ambiguous, but never move it to another identity. */
  lemma AttributionNeverSwitches(event: Event, receipts: seq<JobReceipt>, more: seq<JobReceipt>)
    requires Attributed(event, receipts).Some?
    ensures Attributed(event, receipts + more) in {None, Attributed(event, receipts)}
    ensures Attributed(event, receipts + more).None?
       <==> exists r <- more :: Qualifies(event, r) && IdentityOf(r) != Attributed(event, receipts).value
  {
    var who := Attributed(event, receipts).value;
    SoleMember(Claimants(event, receipts), who);
    var all := Claimants(event, receipts + more);
    assert all == Claimants(event, receipts) + Claimants(event, more);
    if exists r <- more :: Qualifies(event, r) && IdentityOf(r) != who {
      var r :| r in more && Qualifies(event, r) && IdentityOf(r) != who;
      assert IdentityOf(r) in all && who in all;
      if |all| == 1 { SoleMember(all, who); }
    } else {
      assert forall x <- Claimants(event, more) :: x == who;
      assert all == {who};
    }
  }
}
