/**
 * Requests and answers over whole runs: one request is outstanding at a time, each is answered at
 * most once and under its own number, and no turn, message or steer is ever started twice.
 */
module Requests {
  import opened Common
  import opened JsonValues
  import opened Protocol
  import opened ProtocolMoves
  import opened ProtocolRuns
  import opened TurnGrammar

  function Number(e: Entry): int
    requires !e.Noted?
  {
    if e.Sent? then e.request.outer else e.outer
  }

  /** Requests go out, and replies come back, under strictly increasing numbers. */
  predicate Ordered(log: seq<Entry>) {
    && (forall i, j :: 0 <= i < j < |log| && log[i].Sent? && log[j].Sent? ==> Number(log[i]) < Number(log[j]))
    && (forall i, j :: 0 <= i < j < |log| && log[i].Replied? && log[j].Replied? ==> Number(log[i]) < Number(log[j]))
  }

  predicate Closes(e: Entry, request: Pending) {
    e.Replied? && e.closes == Some(request)
  }

  predicate ClosedBetween(log: seq<Entry>, i: nat, j: nat)
    requires i < j <= |log| && log[i].Sent?
  {
    exists k :: i < k < j && Closes(log[k], log[i].request)
  }

  /** A request is answered before the next one goes out. */
  predicate OneAtATime(log: seq<Entry>) {
    forall i, j :: 0 <= i < j < |log| && log[i].Sent? && log[j].Sent? ==> ClosedBetween(log, i, j)
  }

  predicate AskedBefore(log: seq<Entry>, j: nat, request: Pending)
    requires j <= |log|
  {
    exists i :: 0 <= i < j && log[i].Sent? && log[i].request == request
  }

  /** A reply to a provider request carries that request's number, and the request went out before it. */
  predicate Correlated(log: seq<Entry>) {
    forall j :: 0 <= j < |log| && log[j].Replied? && log[j].closes.Some? ==>
      log[j].outer == log[j].closes.value.outer && AskedBefore(log, j, log[j].closes.value)
  }

  predicate IsSteer(e: Entry) {
    e.Sent? && e.request.kind == TurnSteer
  }

  /** Two turn/start frames differ in number and message; two turn/steer frames differ in identifier. */
  predicate Differ(x: Entry, y: Entry) {
    && (IsCommit(x) && IsCommit(y) ==>
         && x.request.inner.Int? && y.request.inner.Int? && x.request.inner.n < y.request.inner.n
         && MessageOf(x.frame) != MessageOf(y.frame))
    && (IsSteer(x) && IsSteer(y) ==> x.request.inner != y.request.inner)
  }

  predicate NothingTwice(log: seq<Entry>) {
    forall i, j :: 0 <= i < j < |log| ==> Differ(log[i], log[j])
  }

  /** What the channel remembers of the requests in the log. */
  predicate Remembered(s: Chan, e: Entry) {
    && (!e.Noted? ==> Number(e) <= s.lastOuter)
    && (e.Replied? && s.pending.Some? ==> e.outer < s.pending.value.outer)
    && (IsCommit(e) ==> e.request.inner.Int? && e.request.inner.n <= s.lastTurnInner
                        && MessageOf(e.frame).Str? && MessageOf(e.frame).s in s.messages)
    && (IsSteer(e) ==> e.request.inner.Str? && e.request.inner.s in s.steerIds)
  }

  predicate Outstanding(s: Chan, log: seq<Entry>) {
    && (forall i :: 0 <= i < |log| && log[i].Sent? ==>
         ClosedBetween(log, i, |log|) || s.pending == Some(log[i].request))
    && (s.pending.Some? ==> AskedBefore(log, |log|, s.pending.value))
  }

  predicate Books(s: Chan, log: seq<Entry>) {
    && Ordered(log) && OneAtATime(log) && Correlated(log) && NothingTwice(log)
    && (forall e <- log :: Remembered(s, e))
    && Outstanding(s, log)
  }

  // ---------- one move ----------

  lemma RemembersMore(s: Chan, t: Chan, e: Option<Entry>, x: Entry)
    requires Inv(s) && Effect(s, t, e) && Remembered(s, x)
    ensures Remembered(t, x)
  {
  }

  lemma RemembersNew(s: Chan, t: Chan, e: Entry)
    requires Entered(s, t, e) && (s.pending.Some? ==> s.pending.value.outer <= s.lastOuter)
             && s.lastOuter <= t.lastOuter
    ensures Remembered(t, e)
  {
  }

  lemma NewIsNumbered(s: Chan, t: Chan, e: Entry, x: Entry)
    requires Entered(s, t, e) && Remembered(s, x)
    ensures e.Sent? && x.Sent? ==> Number(x) < Number(e)
    ensures e.Replied? && x.Replied? ==> Number(x) < Number(e)
  {
  }

  lemma NewIsDifferent(s: Chan, t: Chan, e: Entry, x: Entry)
    requires Entered(s, t, e) && Remembered(s, x)
    ensures Differ(x, e)
  {
  }

  lemma ClosedStays(log: seq<Entry>, e: Entry, i: nat, j: nat)
    requires i < j <= |log| && log[i].Sent?
    ensures ClosedBetween(log, i, j) ==> ClosedBetween(log + [e], i, j) && ClosedBetween(log + [e], i, |log| + 1)
  {
    if ClosedBetween(log, i, j) {
      var k :| i < k < j && Closes(log[k], log[i].request);
      assert Closes((log + [e])[k], (log + [e])[i].request);
    }
  }

  lemma AskedStays(log: seq<Entry>, e: Entry, j: nat, request: Pending)
    requires j <= |log| && AskedBefore(log, j, request)
    ensures AskedBefore(log + [e], j, request) && AskedBefore(log + [e], |log| + 1, request)
  {
    var i :| 0 <= i < j && log[i].Sent? && log[i].request == request;
    assert (log + [e])[i] == log[i];
  }

  lemma MoveOrders(s: Chan, t: Chan, e: Entry, log: seq<Entry>)
    requires Entered(s, t, e) && Ordered(log) && forall x <- log :: Remembered(s, x)
    ensures Ordered(log + [e])
  {
    forall i | 0 <= i < |log|
      ensures e.Sent? && log[i].Sent? ==> Number(log[i]) < Number(e)
      ensures e.Replied? && log[i].Replied? ==> Number(log[i]) < Number(e)
    {
      NewIsNumbered(s, t, e, log[i]);
    }
  }

  lemma MoveDiffers(s: Chan, t: Chan, e: Entry, log: seq<Entry>)
    requires Entered(s, t, e) && NothingTwice(log) && forall x <- log :: Remembered(s, x)
    ensures NothingTwice(log + [e])
  {
    var all := log + [e];
    forall i, j | 0 <= i < j < |all| ensures Differ(all[i], all[j]) {
      if j == |log| {
        NewIsDifferent(s, t, e, log[i]);
      } else {
        assert Differ(log[i], log[j]);
      }
    }
  }

  predicate Pends(s: Chan, t: Chan, e: Entry) {
    && (e.Sent? ==> s.pending.None? && t.pending == Some(e.request))
    && (e.Replied? && e.closes.Some? ==> e.closes == s.pending && e.outer == e.closes.value.outer && t.pending.None?)
    && (!e.Sent? && !(e.Replied? && e.closes.Some?) ==> t.pending == s.pending)
  }

  lemma Settles(s: Chan, t: Chan, e: Entry, log: seq<Entry>)
    requires Pends(s, t, e) && OneAtATime(log) && Correlated(log) && Outstanding(s, log)
    ensures OneAtATime(log + [e]) && Correlated(log + [e]) && Outstanding(t, log + [e])
  {
    var n, all := |log|, log + [e];
    assert all[n] == e;
    forall i | 0 <= i < n && log[i].Sent?
      ensures ClosedBetween(all, i, n + 1) || t.pending == Some(log[i].request)
      ensures e.Sent? ==> ClosedBetween(all, i, n)
    {
      ClosedStays(log, e, i, n);
      if s.pending == Some(log[i].request) && Closes(e, log[i].request) {
        assert Closes(all[n], all[i].request);
      }
    }
    forall i, j | 0 <= i < j < n && log[i].Sent? && log[j].Sent? ensures ClosedBetween(all, i, j) {
      ClosedStays(log, e, i, j);
    }
    forall j | 0 <= j < n && log[j].Replied? && log[j].closes.Some? ensures AskedBefore(all, j, log[j].closes.value) {
      AskedStays(log, e, j, log[j].closes.value);
    }
    if s.pending.Some? {
      AskedStays(log, e, n, s.pending.value);
    }
  }

  lemma MoveKeepsBooks(s: Chan, t: Chan, e: Option<Entry>, log: seq<Entry>)
    requires Inv(s) && Effect(s, t, e) && Books(s, log)
    ensures Books(t, log + Listed(e))
  {
    forall x | x in log ensures Remembered(t, x) {
      RemembersMore(s, t, e, x);
    }
    if e.Some? {
      RemembersNew(s, t, e.value);
      MoveOrders(s, t, e.value, log);
      MoveDiffers(s, t, e.value, log);
      Settles(s, t, e.value, log);
    } else {
      assert log + Listed(e) == log;
    }
  }

  lemma {:induction false} RunKeepsBooks(c: Config, workspace: string, inputs: seq<Input>)
    ensures var (s, log) := Run(c, Fresh(workspace), inputs); Books(s, log)
  {
    if inputs == [] {
    } else {
      var before, after, e := LastMove(c, Fresh(workspace), inputs);
      RunKeepsBooks(c, workspace, inputs[..|inputs| - 1]);
      ReachableInv(c, workspace, inputs[..|inputs| - 1]);
      MoveIsSound(before, after, e);
      MoveKeepsBooks(before, after, e, Run(c, Fresh(workspace), inputs[..|inputs| - 1]).1);
    }
  }

  // ---------- the number of accepted frames ----------

  /** Accepted client frames show as a request handed on, or as a reply of the broker's own. */
  function AcceptedFrames(log: seq<Entry>): nat {
    if log == [] then 0
    else
      var e := log[|log| - 1];
      AcceptedFrames(log[..|log| - 1]) + if Accepts(Some(e)) then 1 else 0
  }

  lemma {:induction false} AcceptedAreSpent(c: Config, workspace: string, inputs: seq<Input>)
    ensures var (s, log) := Run(c, Fresh(workspace), inputs); AcceptedFrames(log) <= |s.seen|
  {
    if inputs == [] {
    } else {
      var before, after, e := LastMove(c, Fresh(workspace), inputs);
      AcceptedAreSpent(c, workspace, inputs[..|inputs| - 1]);
      var log := Run(c, Fresh(workspace), inputs[..|inputs| - 1]).1;
      ReachableInv(c, workspace, inputs[..|inputs| - 1]);
      MoveIsSound(before, after, e);
      assert e.Some? ==> (log + Listed(e))[..|log|] == log;
      assert e.None? ==> log + Listed(e) == log;
    }
  }

  /** Requests and answers of every run, whatever was refused on the way. */
  lemma RequestsAreAnsweredInOrder(c: Config, workspace: string, inputs: seq<Input>)
    ensures var log := Run(c, Fresh(workspace), inputs).1;
            Ordered(log) && OneAtATime(log) && Correlated(log) && NothingTwice(log) && AcceptedFrames(log) <= 256
  {
    RunKeepsBooks(c, workspace, inputs);
    AcceptedAreSpent(c, workspace, inputs);
    ReachableInv(c, workspace, inputs);
  }

  /** What an accepted answer carries: the client's number, and inside it the provider's own identifier. */
  lemma AnswersMatch(c: Config, s: Chan, frame: Json)
    requires ProviderStep(c, s, frame).1.Answer?
    ensures s.pending.Some? && frame.Get("id") == s.pending.value.inner
    ensures var reply := ProviderStep(c, s, frame).1.reply;
            && reply.id == s.pending.value.outer && reply.result.Get("frame").Get("id") == s.pending.value.inner
            && reply.result.Get("owned_handle") == Nullable(s.handle)
  {
  }

  /**
   * What an answer lets through: of initialize everything but the account directory, of the account its
   * type, of a thread its fixed parameters, of a turn or steer the channel's own turn.
   */
  predicate CleanAnswer(s: Chan, t: Chan, kind: Kind, result: Json) {
    match kind
    case Initialize =>
      Exact(result, {"userAgent", "platformFamily", "platformOs", "codexHome"})
          && result.Get("codexHome") == Str("broker-private")
    case AccountRead =>
        result == Obj(map["requiresOpenaiAuth" := Bool(true), "account" := Obj(map["type" := Str("chatgpt")])])
    case ThreadStart => CleanThreadAnswer(s, t, result)
    case ThreadResume => CleanThreadAnswer(s, t, result)
    case TurnStart => Exact(result, {"turn"}) && t.turn.Some? && result.Get("turn").Get("id") == Str(t.turn.value)
    case TurnSteer => result == Obj(map["turnId" := Nullable(s.turn)]) && t.turn == s.turn
    case TurnInterrupt => result == Obj(map[])
  }

  predicate CleanThreadAnswer(s: Chan, t: Chan, result: Json) {
    && t.native.Some? && result.Get("thread").Get("id") == Str(t.native.value)
    && Exact(result.Get("thread"), {"id", "cwd", "ephemeral", "modelProvider"})
    && result.Get("cwd") == result.Get("thread").Get("cwd") == Str(s.workspace)
    && result.Get("approvalPolicy") == Str("never")
  }

  lemma ThreadIsClean(c: Config, s: Chan, resume: bool, result: Json)
    requires ThreadResult(c, s, resume, result)
    ensures CleanThreadAnswer(s, ThreadReady(s, result), Obj(CleanThread(c, s, result)))
  {
    assert "model" !in {"thread", "cwd", "approvalPolicy", "modelProvider", "sandbox"};
  }

  lemma SanitizedIsClean(c: Config, s: Chan, inner: Json, kind: Kind, result: Json)
    requires GoodResult(c, s, kind, result)
    ensures CleanAnswer(s, Absorb(s, kind, result), kind, Sanitized(c, s, inner, kind, result).Get("result"))
  {
    match kind
    case ThreadStart => ThreadIsClean(c, s, false, result);
    case ThreadResume => ThreadIsClean(c, s, true, result);
    case _ => ScalarIsClean(c, s, inner, kind, result);
  }

  lemma ScalarIsClean(c: Config, s: Chan, inner: Json, kind: Kind, result: Json)
    requires GoodResult(c, s, kind, result) && !kind.ThreadStart? && !kind.ThreadResume?
    ensures CleanAnswer(s, Absorb(s, kind, result), kind, Sanitized(c, s, inner, kind, result).Get("result"))
  {
  }

  lemma AnswersAreClean(c: Config, s: Chan, frame: Json)
    requires ProviderStep(c, s, frame).1.Answer?
    ensures s.pending.Some?
    ensures var (t, out) := ProviderStep(c, s, frame);
            CleanAnswer(s, t, s.pending.value.kind, out.reply.result.Get("frame").Get("result"))
  {
    var Pending(_, inner, kind) := s.pending.value;
    SanitizedIsClean(c, s, inner, kind, frame.Get("result"));
    var absorbed := Absorb(s, kind, frame.Get("result"));
    assert ProviderStep(c, s, frame).0 == absorbed.(pending := None);
  }
}
