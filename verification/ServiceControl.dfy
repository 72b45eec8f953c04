/**
 * Service control with durable intent (service_control.py): intents, runner calls and outcomes
 * as the atomic steps of any number of controller processes, any of which may crash at any point.
 */
module ServiceControl {
  import opened Common
  import opened Attribution

  datatype Request = Request(principal: string, changeRef: string, bootId: string, unit: string, action: string)

  /** A row of the controls table. */
  datatype Operation = Operation(request: Request, source: string, outcome: string, jobId: Option<string>,
                                 created: Time)

  /** What busctl did: died or raised, or exited with a status and an output. */
  datatype Answer = Raised | Exited(code: int, reply: Option<Reply>)

  /** The JSON object busctl printed: its type, and its data if that is a list. */
  datatype Reply = Reply(kind: Field, data: Option<seq<Field>>)

  const JOB_PATH := "/org/freedesktop/systemd1/job/"

  /** The job identity in an answer: one object path of exactly the job shape. */
  function JobOf(answer: Answer): Option<string> {
    if answer.Exited? && answer.code == 0 && answer.reply.Some? && answer.reply.value.kind == Text("o")
       && answer.reply.value.data.Some? && |answer.reply.value.data.value| == 1
       && answer.reply.value.data.value[0].Text?
    then
      var path := answer.reply.value.data.value[0].s;
      if JOB_PATH <= path && 1 <= |path| - |JOB_PATH| <= 20 && Digits(path[|JOB_PATH|..])
      then Some(path[|JOB_PATH|..]) else None
    else None
  }

  datatype Error = NotApproved | BadBoot | BadOperation | KindMismatch | Rebound | Full

  datatype Result = Answered(outcome: string, jobId: Option<string>) | Recorded | Refused(error: Error)

  predicate Approved(request: Request, allowed: set<string>) {
    request.unit in allowed && Token(request.unit) && request.action in ACTIONS && Token(request.changeRef)
  }

  function Intent(request: Request, now: Time): Operation {
    Operation(request, "service-control", "intent", None, now)
  }

  /** What `control` finds wrong with its arguments, before it touches the store. */
  function ArgumentError(id: string, request: Request, allowed: set<string>): Option<Error> {
    if !Approved(request, allowed) then Some(NotApproved)
    else if !BootId(request.bootId) then Some(BadBoot)
    else if !Token(id) then Some(BadOperation)
    else None
  }

  /** A store that `initialize` can claim: a new one, or one of this kind. */
  predicate Claimable(kind: Option<string>) {
    kind in {None, Some("service-control")}
  }

  /** The intent transaction. */
  function Begin(table: map<string, Operation>, capacity: nat, id: string, request: Request, allowed: set<string>,
                 now: Time): Result {
    var bad := ArgumentError(id, request, allowed);
    if bad.Some? then Refused(bad.value)
    else if id in table then
      if table[id].request != request then Refused(Rebound)
      else Answered(table[id].outcome, table[id].jobId)
    else if |table| >= capacity then Refused(Full)
    else Recorded
  }

  function Finished(op: Operation, answer: Answer): Operation {
    var job := JobOf(answer);
    op.(outcome := if job.Some? then "accepted" else "uncertain", jobId := job)
  }

  // ---------- processes ----------

  /** Where a controller process stands after its intent committed. */
  datatype Process = Ready(id: string) | Called(id: string, answer: Answer)

  /** One call of the runner, with the request it served and what came back. */
  datatype Call = Call(id: string, request: Request, answer: Answer)

  datatype World = World(table: map<string, Operation>, running: map<nat, Process>, calls: seq<Call>)

  datatype Step =
    | Start(pid: nat, id: string, request: Request, allowed: set<string>, now: Time)
    | Invoke(pid: nat, answer: Answer)
    | Conclude(pid: nat)
    | Die(pid: nat)

  function Next(capacity: nat, w: World, step: Step): World {
    match step
    case Start(pid, id, request, allowed, now) =>
      if pid !in w.running && Begin(w.table, capacity, id, request, allowed, now) == Recorded then
        w.(table := w.table[id := Intent(request, now)], running := w.running[pid := Ready(id)])
      else w
    case Invoke(pid, answer) =>
      if pid in w.running && w.running[pid].Ready? && w.running[pid].id in w.table then
        var id := w.running[pid].id;
        w.(running := w.running[pid := Called(id, answer)], calls := w.calls + [Call(id, w.table[id].request, answer)])
      else w
    case Conclude(pid) =>
      if pid in w.running && w.running[pid].Called? && w.running[pid].id in w.table then
        var p := w.running[pid];
        w.(table := w.table[p.id := Finished(w.table[p.id], p.answer)], running := w.running - {pid})
      else w
    case Die(pid) => w.(running := w.running - {pid})
  }

  function Run(capacity: nat, w: World, steps: seq<Step>): World
    decreases |steps|
  {
    if steps == [] then w else Run(capacity, Next(capacity, w, steps[0]), steps[1..])
  }

  const IDLE := World(map[], map[], [])

  // ---------- safety ----------

  predicate CalledOnce(calls: seq<Call>) {
    forall i, j :: 0 <= i < j < |calls| ==> calls[i].id != calls[j].id
  }

  predicate HasCalled(calls: seq<Call>, id: string) {
    exists c <- calls :: c.id == id
  }

  /** Every recorded job was returned by the operation's own single call. */
  predicate Accounted(w: World, id: string)
    requires id in w.table
  {
    var op := w.table[id];
    && (op.outcome == "accepted" <==> op.jobId.Some?)
    && (op.outcome != "intent" ==>
          exists c <- w.calls :: c.id == id && c.request == op.request && JobOf(c.answer) == op.jobId)
  }

  ghost predicate CallsSound(w: World) {
    CalledOnce(w.calls) && forall c <- w.calls :: c.id in w.table && w.table[c.id].request == c.request
  }

  ghost predicate TableSound(w: World) {
    forall id <- w.table ::
      Accounted(w, id) && w.table[id].source == "service-control" && Token(id) && Token(w.table[id].request.changeRef)
  }

  /** A live process works on an open intent, and has called exactly if it says so. */
  ghost predicate ProcessSound(w: World, p: Process) {
    && p.id in w.table && w.table[p.id].outcome == "intent"
    && (p.Ready? ==> !HasCalled(w.calls, p.id))
    && (p.Called? ==> exists c <- w.calls :: c.id == p.id && c.request == w.table[p.id].request && c.answer == p.answer)
  }

  ghost predicate ProcessesSound(w: World) {
    && (forall pid <- w.running :: ProcessSound(w, w.running[pid]))
    && (forall p <- w.running, q <- w.running :: w.running[p].id == w.running[q].id ==> p == q)
  }

  ghost predicate Inv(w: World) {
    CallsSound(w) && TableSound(w) && ProcessesSound(w)
  }

  // Start: a new intent touches no existing row, call or process.

  predicate Started(w: World, w1: World, pid: nat, id: string, op: Operation) {
    && id !in w.table && pid !in w.running
    && w1 == w.(table := w.table[id := op], running := w.running[pid := Ready(id)])
    && op.outcome == "intent" && op.jobId.None? && op.source == "service-control" && Token(id)
       && Token(op.request.changeRef)
  }

  lemma StartedTable(w: World, w1: World, pid: nat, id: string, op: Operation)
    requires Inv(w) && Started(w, w1, pid, id, op)
    ensures CallsSound(w1) && TableSound(w1)
  {
    forall k | k in w1.table ensures Accounted(w1, k) {
      if k != id { assert Accounted(w, k); }
    }
  }

  lemma StartedProcesses(w: World, w1: World, pid: nat, id: string, op: Operation)
    requires Inv(w) && Started(w, w1, pid, id, op)
    ensures ProcessesSound(w1)
  {
    forall p | p in w1.running ensures ProcessSound(w1, w1.running[p]) {
      if p != pid { assert ProcessSound(w, w.running[p]); }
    }
    forall p, q | p in w1.running && q in w1.running && w1.running[p].id == w1.running[q].id ensures p == q {
      if p != pid { assert ProcessSound(w, w.running[p]); }
      if q != pid { assert ProcessSound(w, w.running[q]); }
    }
  }

  // Invoke: one more call, by a process that had not called.

  predicate Invoked(w: World, w1: World, pid: nat, c: Call) {
    && pid in w.running && w.running[pid] == Ready(c.id) && c.id in w.table && w.table[c.id].request == c.request
    && w1 == w.(running := w.running[pid := Called(c.id, c.answer)], calls := w.calls + [c])
  }

  lemma InvokedTable(w: World, w1: World, pid: nat, c: Call)
    requires Inv(w) && Invoked(w, w1, pid, c)
    ensures CallsSound(w1) && TableSound(w1)
  {
    assert ProcessSound(w, w.running[pid]);
    assert forall x :: x in w1.calls <==> x in w.calls || x == c;
    forall k | k in w1.table ensures Accounted(w1, k) {
      assert Accounted(w, k);
    }
    forall i, j | 0 <= i < j < |w1.calls| ensures w1.calls[i].id != w1.calls[j].id {
      assert w1.calls[i] in w.calls;
    }
  }

  lemma InvokedProcesses(w: World, w1: World, pid: nat, c: Call)
    requires Inv(w) && Invoked(w, w1, pid, c)
    ensures ProcessesSound(w1)
  {
    assert forall x :: x in w1.calls <==> x in w.calls || x == c;
    forall p | p in w1.running ensures ProcessSound(w1, w1.running[p]) {
      if p != pid { assert ProcessSound(w, w.running[p]); }
    }
  }

  // Conclude: the row of a process that called takes its outcome.

  predicate Concluded(w: World, w1: World, pid: nat, id: string, answer: Answer) {
    && pid in w.running && w.running[pid] == Called(id, answer) && id in w.table
    && w1 == w.(table := w.table[id := Finished(w.table[id], answer)], running := w.running - {pid})
  }

  lemma ConcludedTable(w: World, w1: World, pid: nat, id: string, answer: Answer)
    requires Inv(w) && Concluded(w, w1, pid, id, answer)
    ensures CallsSound(w1) && TableSound(w1)
  {
    assert ProcessSound(w, w.running[pid]);
    forall k | k in w1.table ensures Accounted(w1, k) {
      if k != id { assert Accounted(w, k); }
    }
  }

  lemma ConcludedProcesses(w: World, w1: World, pid: nat, id: string, answer: Answer)
    requires Inv(w) && Concluded(w, w1, pid, id, answer)
    ensures ProcessesSound(w1)
  {
    forall p | p in w1.running ensures ProcessSound(w1, w1.running[p]) {
      assert ProcessSound(w, w.running[p]);
    }
  }

  lemma DeathKeeps(w: World, pid: nat)
    requires Inv(w)
    ensures Inv(w.(running := w.running - {pid}))
  {
    var w1 := w.(running := w.running - {pid});
    forall k | k in w1.table ensures Accounted(w1, k) {
      assert Accounted(w, k);
    }
    forall p | p in w1.running ensures ProcessSound(w1, w1.running[p]) {
      assert ProcessSound(w, w.running[p]);
    }
  }

  lemma StepKeeps(capacity: nat, w: World, step: Step)
    requires Inv(w)
    ensures Inv(Next(capacity, w, step))
  {
    var w1 := Next(capacity, w, step);
    match step
    case Start(pid, id, request, _, now) =>
      if w1 != w {
        StartedTable(w, w1, pid, id, Intent(request, now));
        StartedProcesses(w, w1, pid, id, Intent(request, now));
      }
    case Invoke(pid, answer) =>
      if w1 != w {
        var id := w.running[pid].id;
        InvokedTable(w, w1, pid, Call(id, w.table[id].request, answer));
        InvokedProcesses(w, w1, pid, Call(id, w.table[id].request, answer));
      }
    case Conclude(pid) =>
      if w1 != w {
        ConcludedTable(w, w1, pid, w.running[pid].id, w.running[pid].answer);
        ConcludedProcesses(w, w1, pid, w.running[pid].id, w.running[pid].answer);
      }
    case Die(pid) => DeathKeeps(w, pid);
  }

  lemma {:induction false} RunKeeps(capacity: nat, w: World, steps: seq<Step>)
    requires Inv(w)
    ensures Inv(Run(capacity, w, steps))
    decreases |steps|
  {
    if steps != [] {
      StepKeeps(capacity, w, steps[0]);
      RunKeeps(capacity, Next(capacity, w, steps[0]), steps[1..]);
    }
  }

  /** Over every run with crashes anywhere, the runner is called at most once per operation identity. */
  lemma AtMostOneCall(capacity: nat, steps: seq<Step>)
    ensures CalledOnce(Run(capacity, IDLE, steps).calls)
  {
    RunKeeps(capacity, IDLE, steps);
  }

  /** Reusing an identity never acts again, and a conflicting reuse changes nothing at all. */
  lemma ReuseChangesNothing(capacity: nat, w: World, pid: nat, id: string, request: Request, allowed: set<string>,
                            now: Time)
    requires id in w.table
    ensures Next(capacity, w, Start(pid, id, request, allowed, now)) == w
    ensures w.table[id].request != request ==> Begin(w.table, capacity, id, request, allowed, now).Refused?
  {
  }

  lemma OutcomeStays(capacity: nat, w: World, step: Step, id: string)
    requires Inv(w) && id in w.table && w.table[id].outcome != "intent"
    ensures var w1 := Next(capacity, w, step); id in w1.table && w1.table[id] == w.table[id]
  {
    if step.Conclude? && step.pid in w.running {
      assert ProcessSound(w, w.running[step.pid]);
    }
  }

  /** An operation that ended stays as it ended, whatever runs later. */
  lemma {:induction false} OutcomesAreFinal(capacity: nat, w: World, steps: seq<Step>, id: string)
    requires Inv(w) && id in w.table && w.table[id].outcome != "intent"
    ensures var w1 := Run(capacity, w, steps); id in w1.table && w1.table[id] == w.table[id]
    decreases |steps|
  {
    if steps != [] {
      StepKeeps(capacity, w, steps[0]);
      OutcomeStays(capacity, w, steps[0], id);
      OutcomesAreFinal(capacity, Next(capacity, w, steps[0]), steps[1..], id);
    }
  }

  // ---------- receipts and attribution ----------

  function ReceiptOf(id: string, op: Operation): JobReceipt {
    JobReceipt(Text(op.request.bootId), if op.jobId.Some? then Text(op.jobId.value) else Other, Text(op.request.unit),
               Text(op.request.action), Text(op.outcome), Text(id), Text(op.request.principal),
               Text(op.request.changeRef), Text(op.source))
  }

  /** A listing of the accepted operations, in any order. */
  ghost predicate Lists(receipts: seq<JobReceipt>, table: map<string, Operation>) {
    forall r :: r in receipts <==> exists id <- table ::
        table[id].outcome == "accepted" && r == ReceiptOf(id, table[id])
  }

  /** The one accepted operation behind an attribution. */
  lemma ClaimantOperation(table: map<string, Operation>, receipts: seq<JobReceipt>, event: Event) returns (id: string)
    requires Lists(receipts, table) && Attributed(event, receipts).Some?
    ensures id in table && table[id].outcome == "accepted"
    ensures Qualifies(event, ReceiptOf(id, table[id]))
            && Attributed(event, receipts).value == IdentityOf(ReceiptOf(id, table[id]))
  {
    var who := Attributed(event, receipts).value;
    assert who in Claimants(event, receipts);
    var r :| r in receipts && Qualifies(event, r) && IdentityOf(r) == who;
    id :| id in table && table[id].outcome == "accepted" && r == ReceiptOf(id, table[id]);
  }

  /** The single call that accounts for a recorded job. */
  predicate SoleCall(calls: seq<Call>, id: string, job: string) {
    exists i :: 0 <= i < |calls| && calls[i].id == id && JobOf(calls[i].answer) == Some(job)
                && forall j :: 0 <= j < |calls| && calls[j].id == id ==> j == i
  }

  lemma AcceptedHasSoleCall(w: World, id: string)
    requires Inv(w) && id in w.table && w.table[id].outcome == "accepted"
    ensures w.table[id].jobId.Some? && SoleCall(w.calls, id, w.table[id].jobId.value)
  {
    assert Accounted(w, id);
    var c :| c in w.calls && c.id == id && JobOf(c.answer) == w.table[id].jobId;
    var i :| 0 <= i < |w.calls| && w.calls[i] == c;
  }

  /** An accepted operation whose single call returned exactly the job of the event, for its boot, unit and action. */
  predicate Earned(w: World, event: Event, who: Identity) {
    && who.operationId in w.table
    && var op := w.table[who.operationId];
       && op.outcome == "accepted" && op.jobId == Some(event.job)
       && op.request.bootId == event.boot && op.request.unit == event.unit
       && event.action in Compatible(Text(op.request.action))
       && who == Identity(who.operationId, op.request.principal, op.request.changeRef, op.source)
       && SoleCall(w.calls, who.operationId, event.job)
  }

  /** In any run, what a listing of its receipts attributes an event to was earned. */
  lemma AttributionIsEarned(capacity: nat, steps: seq<Step>, receipts: seq<JobReceipt>, event: Event)
    requires Lists(receipts, Run(capacity, IDLE, steps).table)
    requires Attributed(event, receipts).Some?
    ensures Earned(Run(capacity, IDLE, steps), event, Attributed(event, receipts).value)
  {
    var w := Run(capacity, IDLE, steps);
    RunKeeps(capacity, IDLE, steps);
    var id := ClaimantOperation(w.table, receipts, event);
    AcceptedHasSoleCall(w, id);
  }

  /** Whether, and where, a controller process dies. */
  datatype Fate = Lives | DiesBeforeCall | DiesAfterCall

  /** The controls table, and the kind of its store, as one controller process updates them. */
  class Controller {
    const capacity: nat
    var kind: Option<string>
    var table: map<string, Operation>
    var calls: seq<Call>

    ghost function State(): World reads this {
      World(table, map[], calls)
    }

    constructor (capacity: nat)
      ensures State() == IDLE && kind == None && this.capacity == capacity
    {
      this.capacity, kind, table, calls := capacity, None, map[], [];
    }

    /**
     * `control`: arguments, kind claim, intent, one call, outcome. A death leaves the claim, the intent,
     * and the call if it was made.
     */
    method Control(id: string, request: Request, allowed: set<string>, now: Time, answer: Answer, fate: Fate)
      returns (r: Result)
      modifies this`kind, this`table, this`calls
      ensures var bad := ArgumentError(id, request, allowed);
              if bad.Some? then r == Refused(bad.value) && kind == old(kind) && State() == old(State())
              else if !Claimable(old(kind))
                  then r == Refused(KindMismatch) && kind == old(kind) && State() == old(State())
              else
                && kind == Some("service-control")
                && r == (match Begin(old(table), capacity, id, request, allowed, now)
                         case Recorded =>
                             if fate.Lives?
                                 then Answered(Finished(Intent(request, now), answer).outcome, JobOf(answer))
                                     else Recorded
                         case other => other)
                && State() == Run(capacity, old(State()), [Start(0, id, request, allowed, now)]
                   + ProcessSteps(answer, fate))
    {
      if !Approved(request, allowed) {
        return Refused(NotApproved);
      }
      if !BootId(request.bootId) {
        return Refused(BadBoot);
      }
      if !Token(id) {
        return Refused(BadOperation);
      }
      if kind.None? {
        kind := Some("service-control");
      }
      if kind != Some("service-control") {
        return Refused(KindMismatch);
      }
      var begun := Allow(id, request, allowed, now);
      if !begun.Recorded? {
        RunIdle(capacity, State(), id, request, allowed, now, answer, fate);
        return begun;
      }
      RunRecorded(capacity, State(), id, request, allowed, now, answer, fate);
      r := Perform(id, request, now, answer, fate);
    }

    /** What an identity already recorded answers, and whether there is room for a new one. */
    method Allow(id: string, request: Request, allowed: set<string>, now: Time) returns (r: Result)
      requires ArgumentError(id, request, allowed).None?
      ensures r == Begin(table, capacity, id, request, allowed, now)
    {
      if id in table {
        if table[id].request != request {
          return Refused(Rebound);
        }
        return Answered(table[id].outcome, table[id].jobId);
      }
      if |table| >= capacity {
        return Refused(Full);
      }
      r := Recorded;
    }

    /** Intent, call, outcome. */
    method Perform(id: string, request: Request, now: Time, answer: Answer, fate: Fate) returns (r: Result)
      modifies this`table, this`calls
      ensures table
              == old(table)[id := if fate.Lives? then Finished(Intent(request, now), answer) else Intent(request, now)]
      ensures calls == if fate.DiesBeforeCall? then old(calls) else old(calls) + [Call(id, request, answer)]
      ensures r == if fate.Lives? then Answered(Finished(Intent(request, now), answer).outcome, JobOf(answer))
              else Recorded
    {
      table := table[id := Intent(request, now)];
      if fate.DiesBeforeCall? {
        return Recorded;
      }
      calls := calls + [Call(id, request, answer)];
      if fate.DiesAfterCall? {
        return Recorded;
      }
      var outcome, jobId := "uncertain", None;
      if JobOf(answer).Some? {
        outcome, jobId := "accepted", JobOf(answer);
      }
      table := table[id := table[id].(outcome := outcome, jobId := jobId)];
      r := Answered(outcome, jobId);
    }
  }

  /** The run of one process whose intent committed. */
  lemma RunRecorded(capacity: nat, w: World, id: string, request: Request, allowed: set<string>, now: Time,
                    answer: Answer, fate: Fate)
    requires w.running == map[] && Begin(w.table, capacity, id, request, allowed, now) == Recorded
    ensures Run(capacity, w, [Start(0, id, request, allowed, now)] + ProcessSteps(answer, fate))
            == World(w.table[id := if fate.Lives? then Finished(Intent(request, now), answer)
                else Intent(request, now)], map[],
                     if fate.DiesBeforeCall? then w.calls else w.calls + [Call(id, request, answer)])
  {
    RunProcess(capacity, w, Start(0, id, request, allowed, now), answer, fate);
    var w1 := Next(capacity, w, Start(0, id, request, allowed, now));
    assert w1 == World(w.table[id := Intent(request, now)], map[0 := Ready(id)], w.calls);
    if !fate.DiesBeforeCall? {
      CallReturns(capacity, w1, id, answer);
    } else {
      assert w1.running - {0} == map[];
    }
  }

  /** The sole process calls, and then concludes or dies. */
  lemma CallReturns(capacity: nat, w: World, id: string, answer: Answer)
    requires w.running == map[0 := Ready(id)] && id in w.table
    ensures var called, calls :=
            Next(capacity, w, Invoke(0, answer)), w.calls + [Call(id, w.table[id].request, answer)];
            && Next(capacity, called, Die(0)) == World(w.table, map[], calls)
            && Next(capacity, called, Conclude(0)) == World(w.table[id := Finished(w.table[id], answer)], map[], calls)
  {
    var called := Next(capacity, w, Invoke(0, answer));
    assert called.running == map[0 := Called(id, answer)];
    assert called.running - {0} == map[];
  }

  /** A refused or answered process takes no step. */
  lemma RunIdle(capacity: nat, w: World, id: string, request: Request, allowed: set<string>, now: Time, answer: Answer,
                fate: Fate)
    requires w.running == map[] && Begin(w.table, capacity, id, request, allowed, now) != Recorded
    ensures Run(capacity, w, [Start(0, id, request, allowed, now)] + ProcessSteps(answer, fate)) == w
  {
    RunProcess(capacity, w, Start(0, id, request, allowed, now), answer, fate);
    assert w.running - {0} == map[];
  }

  function ProcessSteps(answer: Answer, fate: Fate): seq<Step> {
    match fate
    case DiesBeforeCall => [Die(0)]
    case DiesAfterCall => [Invoke(0, answer), Die(0)]
    case Lives => [Invoke(0, answer), Conclude(0)]
  }

  lemma RunProcess(capacity: nat, w: World, start: Step, answer: Answer, fate: Fate)
    ensures var w1 := Next(capacity, w, start);
            Run(capacity, w, [start] + ProcessSteps(answer, fate)) ==
            match fate
            case DiesBeforeCall => Next(capacity, w1, Die(0))
            case DiesAfterCall => Next(capacity, Next(capacity, w1, Invoke(0, answer)), Die(0))
            case Lives => Next(capacity, Next(capacity, w1, Invoke(0, answer)), Conclude(0))
  {
    var rest := ProcessSteps(answer, fate);
    assert ([start] + rest)[1..] == rest;
    var w1 := Next(capacity, w, start);
    assert Run(capacity, w, [start] + rest) == Run(capacity, w1, rest);
    if !fate.DiesBeforeCall? {
      var w2 := Next(capacity, w1, rest[0]);
      assert Run(capacity, w1, rest) == Run(capacity, w2, rest[1..]);
      assert rest[1..][1..] == [];
      assert Run(capacity, w2, rest[1..]) == Run(capacity, Next(capacity, w2, rest[1]), []);
    } else {
      assert rest[1..] == [];
      assert Run(capacity, w1, rest) == Run(capacity, Next(capacity, w1, rest[0]), []);
    }
  }
}
