/**
 * Whole runs of the owned-session protocol: any interleaving of client and provider frames, going on
 * after every refusal.
 */
module ProtocolRuns {
  import opened Common
  import opened JsonValues
  import opened Protocol
  import opened ProtocolMoves

  /** The channel after the inputs, and everything it let out, in order. */
  function Run(c: Config, s: Chan, inputs: seq<Input>): (Chan, seq<Entry>) {
    if inputs == [] then (s, [])
    else
      var (before, log) := Run(c, s, inputs[..|inputs| - 1]);
      var (after, e) := Step(c, before, inputs[|inputs| - 1]);
      (after, log + Listed(e))
  }

  function Listed(e: Option<Entry>): seq<Entry> {
    if e.Some? then [e.value] else []
  }

  // ---------- the reachable states ----------

  predicate PendingFits(s: Chan, p: Pending) {
    && p.outer <= s.lastOuter && s.stage == StageOf(p.kind) && s.handle.Some?
    && (StageOf(p.kind) == Ready ==> s.committed)
    && (p.kind in {TurnSteer, TurnInterrupt} ==> s.turn.Some?)
    && (p.kind == TurnSteer ==> !s.cancelled)
    && (p.kind == TurnInterrupt ==> s.cancelled)
  }

  predicate Inv(s: Chan) {
    && (s.pending.Some? ==> PendingFits(s, s.pending.value))
    && (s.handle.None? ==> s.stage == New)
    && (s.native.Some? <==> s.stage == Ready)
    && (s.committed ==> s.stage == Ready)
    && (s.turn.Some? ==> s.committed)
    && (s.committed && s.turn.None? ==> s.pending.Some? && s.pending.value.kind == TurnStart)
    && (s.terminal ==> s.turn.Some? && s.turn.value !in s.retired)
    && (s.cancelled ==> s.turn.Some?)
    && (if s.committed then |s.retired| == |s.messages| - 1 else s.retired == s.messages == {})
    && |s.messages| <= 256 && |s.steerIds| <= 128 && |s.seen| <= 256
    && (forall outer <- s.seen :: outer <= s.lastOuter)
  }

  function Rank(stage: Stage): nat {
    match stage
    case New => 0
    case InitializeReplied => 1
    case Initialized => 2
    case Subscription => 3
    case Ready => 4
  }

  /**
   * The handshake never skips or repeats a stage, the native thread is fixed once known, and nothing spent comes
   * back.
   */
  predicate Forward(s: Chan, t: Chan) {
    && Rank(s.stage) <= Rank(t.stage) <= Rank(s.stage) + 1
    && (s.native.Some? ==> t.native == s.native)
    && (s.committed ==> t.committed)
    && s.retired <= t.retired && s.messages <= t.messages && s.steerIds <= t.steerIds && s.seen <= t.seen
    && s.lastOuter <= t.lastOuter && s.lastTurnInner <= t.lastTurnInner
  }

  /** What has to hold for an entry to be let out, and what the channel remembers of it. */
  predicate Entered(s: Chan, t: Chan, e: Entry) {
    match e
    case Sent(request, frame) =>
      && s.pending.None? && t.pending == Some(request) && s.lastOuter < request.outer == t.lastOuter
      && (request.kind == TurnStart ==>
            && (s.committed ==> s.terminal)
            && request.inner == Int(t.lastTurnInner) && s.lastTurnInner < t.lastTurnInner
            && MessageOf(frame).Str? && MessageOf(frame).s !in s.messages && MessageOf(frame).s in t.messages)
      && (request.kind == TurnSteer ==>
         request.inner.Str? && request.inner.s !in s.steerIds && request.inner.s in t.steerIds)
    case Replied(outer, closes, turn) =>
      && t.pending.None?
      && if closes.Some?
         then closes == s.pending && outer == closes.value.outer && (closes.value.kind == TurnSteer ==> !s.terminal)
         else s.pending.None? && s.lastOuter < outer == t.lastOuter
    case Noted(name, turnId) =>
      t.pending == s.pending && !s.terminal && t.turn == Some(turnId) && turnId !in s.retired
  }

  predicate Accepts(e: Option<Entry>) {
    e.Some? && (e.value.Sent? || (e.value.Replied? && e.value.closes.None?))
  }

  predicate Effect(s: Chan, t: Chan, e: Option<Entry>) {
    && Forward(s, t)
    && (if e.Some? then Entered(s, t, e.value) else t.pending == s.pending)
    && (s.turn.Some? && !s.terminal ==> t.turn == s.turn)
    && (s.terminal ==> t.terminal || (e.Some? && e.value.Sent? && e.value.request.kind == TurnStart))
    && |t.seen| >= |s.seen| + if Accepts(e) then 1 else 0
  }

  lemma QuietSound(s: Chan, t: Chan, e: Option<Entry>)
    requires Inv(s) && Quiet(s, t, e)
    ensures Inv(t) && Effect(s, t, e)
  {
  }

  lemma OpensSound(s: Chan, t: Chan, e: Option<Entry>)
    requires Inv(s) && Opens(s, t, e)
    ensures Inv(t) && Effect(s, t, e)
  {
  }

  lemma InitializesSound(s: Chan, t: Chan, e: Option<Entry>)
    requires Inv(s) && Initializes(s, t, e)
    ensures Inv(t) && Effect(s, t, e)
  {
  }

  lemma HandshakesSound(s: Chan, t: Chan, e: Option<Entry>)
    requires Inv(s) && Handshakes(s, t, e)
    ensures Inv(t) && Effect(s, t, e)
  {
  }

  lemma CommitsSound(s: Chan, t: Chan, e: Option<Entry>)
    requires Inv(s) && Commits(s, t, e)
    ensures Inv(t) && Effect(s, t, e)
  {
  }

  lemma SteersSound(s: Chan, t: Chan, e: Option<Entry>)
    requires Inv(s) && Steers(s, t, e)
    ensures Inv(t) && Effect(s, t, e)
  {
  }

  lemma InterruptsSound(s: Chan, t: Chan, e: Option<Entry>)
    requires Inv(s) && Interrupts(s, t, e)
    ensures Inv(t) && Effect(s, t, e)
  {
  }

  lemma AdvancesSound(s: Chan, t: Chan, e: Option<Entry>)
    requires Inv(s) && Advances(s, t, e)
    ensures Inv(t) && Effect(s, t, e)
  {
  }

  lemma StartsSound(s: Chan, t: Chan, e: Option<Entry>)
    requires Inv(s) && Starts(s, t, e)
    ensures Inv(t) && Effect(s, t, e)
  {
  }

  lemma AcknowledgesSound(s: Chan, t: Chan, e: Option<Entry>)
    requires Inv(s) && Acknowledges(s, t, e)
    ensures Inv(t) && Effect(s, t, e)
  {
  }

  lemma NotesSound(s: Chan, t: Chan, e: Option<Entry>)
    requires Inv(s) && Notes(s, t, e)
    ensures Inv(t) && Effect(s, t, e)
  {
  }

  lemma NamesSound(s: Chan, t: Chan, e: Option<Entry>)
    requires Inv(s) && Names(s, t, e)
    ensures Inv(t) && Effect(s, t, e)
  {
  }

  /** Every move keeps the invariant, and has the effect of its entry. */
  lemma MoveIsSound(s: Chan, t: Chan, e: Option<Entry>)
    requires Inv(s) && Move(s, t, e)
    ensures Inv(t) && Effect(s, t, e)
  {
    if Quiet(s, t, e) {
      QuietSound(s, t, e);
    } else if Opens(s, t, e) {
      OpensSound(s, t, e);
    } else if Initializes(s, t, e) {
      InitializesSound(s, t, e);
    } else if Handshakes(s, t, e) {
      HandshakesSound(s, t, e);
    } else if Commits(s, t, e) {
      CommitsSound(s, t, e);
    } else if Steers(s, t, e) {
      SteersSound(s, t, e);
    } else if Interrupts(s, t, e) {
      InterruptsSound(s, t, e);
    } else if Advances(s, t, e) {
      AdvancesSound(s, t, e);
    } else if Starts(s, t, e) {
      StartsSound(s, t, e);
    } else if Acknowledges(s, t, e) {
      AcknowledgesSound(s, t, e);
    } else if Notes(s, t, e) {
      NotesSound(s, t, e);
    } else if Names(s, t, e) {
      NamesSound(s, t, e);
    }
  }

  lemma {:induction false} RunKeepsInv(c: Config, s: Chan, inputs: seq<Input>)
    requires Inv(s)
    ensures Inv(Run(c, s, inputs).0)
  {
    if inputs == [] {
    } else {
      RunKeepsInv(c, s, inputs[..|inputs| - 1]);
      var before, after, e := LastMove(c, s, inputs);
      MoveIsSound(before, after, e);
    }
  }

  /** The last move of a run, and what it appended to the log. */
  lemma LastMove(c: Config, s: Chan, inputs: seq<Input>) returns (before: Chan, after: Chan, e: Option<Entry>)
    requires inputs != []
    ensures before == Run(c, s, inputs[..|inputs| - 1]).0
    ensures after == Run(c, s, inputs).0
    ensures Run(c, s, inputs).1 == Run(c, s, inputs[..|inputs| - 1]).1 + Listed(e)
    ensures Move(before, after, e)
  {
    before := Run(c, s, inputs[..|inputs| - 1]).0;
    EveryStepIsAMove(c, before, inputs[|inputs| - 1]);
    var (t, entry) := Step(c, before, inputs[|inputs| - 1]);
    after, e := t, entry;
  }

  /** A channel starts in a state that meets the invariant, so every run stays within it. */
  lemma ReachableInv(c: Config, workspace: string, inputs: seq<Input>)
    ensures Inv(Run(c, Fresh(workspace), inputs).0)
  {
    RunKeepsInv(c, Fresh(workspace), inputs);
  }

  /** One more frame of any run: the stage advances by at most one, and nothing established is taken back. */
  lemma StagesAdvance(c: Config, workspace: string, inputs: seq<Input>, next: Input)
    ensures Forward(Run(c, Fresh(workspace), inputs).0, Run(c, Fresh(workspace), inputs + [next]).0)
  {
    ReachableInv(c, workspace, inputs);
    assert (inputs + [next])[..|inputs + [next]| - 1] == inputs;
    var before, after, e := LastMove(c, Fresh(workspace), inputs + [next]);
    MoveIsSound(before, after, e);
  }

  // ---------- the pinned directories and thread parameters ----------

  /** The directory a thread may run in: the one the channel was made for, or one the operator pinned. */
  predicate Allowed(c: Config, workspace: string, cwd: Json) {
    cwd.Str? && (cwd.s == workspace || cwd.s in c.workspaces)
  }

  function ThreadMap(c: Config, cwd: Json): map<string, Json> {
    map["cwd" := cwd, "approvalPolicy" := Str("never"), "sandbox" := Str(SandboxName(c)), "modelProvider" :=
        Str("openai")]
  }

  /**
   * A new thread is requested exactly with these parameters: no approval, the operator's sandbox, an allowed
   * directory.
   */
  lemma StartIsExact(c: Config, s: Chan, outer: int, frame: Json)
    requires s.stage == Subscription && c.expectedNative.None?
    ensures var (t, out) := ThreadRequest(c, s, outer, frame, false); var params := frame.Get("params");
            && (out.Accepted? <==> Allowed(c, s.workspace, params.Get("cwd"))
                                   && params == Obj(ThreadMap(c, params.Get("cwd"))["ephemeral" := Bool(false)]))
            && (out.Accepted? ==> params.Get("cwd") == Str(t.workspace))
  {
    var params := frame.Get("params");
    if params.Obj? {
      assert StartParams(c, WorkspaceFor(c, s.workspace, params), params) <==>
        params.fields == ThreadMap(c, Str(WorkspaceFor(c, s.workspace, params)))["ephemeral" := Bool(false)];
    }
  }

  /** A thread is resumed exactly with the expected identity, without its turns, and the same parameters. */
  lemma ResumeIsExact(c: Config, s: Chan, outer: int, frame: Json)
    requires s.stage == Subscription && c.expectedNative.Some?
    ensures var (t, out) := ThreadRequest(c, s, outer, frame, true); var params := frame.Get("params");
            out.Accepted? <==>
              && Allowed(c, s.workspace, params.Get("cwd"))
              && params == Obj(ThreadMap(c, params.Get("cwd"))["threadId" :=
                 Str(c.expectedNative.value)]["excludeTurns" := Bool(true)])
  {
    var params := frame.Get("params");
    var read := ThreadParams(c, true, params);
    if read.Some? {
      ResumeFields(c, params, read.value, WorkspaceFor(c, s.workspace, read.value));
      assert read.value.Get("cwd") == params.Get("cwd");
    } else if Allowed(c, s.workspace, params.Get("cwd")) {
      NotResumed(c, params);
    }
  }

  lemma ResumeFields(c: Config, params: Json, read: Json, workspace: string)
    requires ThreadParams(c, true, params) == Some(read) && c.expectedNative.Some?
    ensures StartParams(c, workspace, read) <==>
              params == Obj(ThreadMap(c, Str(workspace))["threadId" := Str(c.expectedNative.value)]["excludeTurns" :=
                  Bool(true)])
  {
    var full := ThreadMap(c, Str(workspace))["threadId" := Str(c.expectedNative.value)]["excludeTurns" := Bool(true)];
    var bare := ThreadMap(c, Str(workspace))["ephemeral" := Bool(false)];
    if params.fields == full {
      assert read.fields == bare;
    }
    if read.fields == bare {
      forall k ensures k in params.fields <==> k in full {
        if k !in {"threadId", "excludeTurns", "ephemeral"} {
          assert k in params.fields <==> k in bare;
        }
      }
      forall k | k in full ensures params.fields[k] == full[k] {
        if k !in {"threadId", "excludeTurns", "ephemeral"} {
          assert params.fields[k] == read.fields[k] == bare[k];
        }
      }
      assert params.fields == full;
    }
  }

  lemma NotResumed(c: Config, params: Json)
    requires ThreadParams(c, true, params).None? && c.expectedNative.Some?
    ensures params
            != Obj(ThreadMap(c, params.Get("cwd"))["threadId" := Str(c.expectedNative.value)]["excludeTurns" :=
                Bool(true)])
  {
  }

  lemma ThreadPins(c: Config, s: Chan, outer: int, frame: Json, resume: bool)
    ensures Allowed(c, s.workspace, Str(ThreadRequest(c, s, outer, frame, resume).0.workspace))
  {
  }

  lemma OwnedPins(c: Config, s: Chan, outer: int, name: string, frame: Json)
    ensures Allowed(c, s.workspace, Str(OwnedStep(c, s, outer, name, frame).0.workspace))
  {
    if name == "BrokerMetadata" {
      MetadataPins(c, s, outer, frame);
    } else if name == "CommitExecution" {
      CommitPins(s, outer, frame);
    }
  }

  lemma MetadataPins(c: Config, s: Chan, outer: int, frame: Json)
    ensures Allowed(c, s.workspace, Str(MetadataStep(c, s, outer, frame).0.workspace))
  {
    if frame.Get("method") == Str("thread/start") {
      ThreadPins(c, s, outer, frame, false);
    } else if frame.Get("method") == Str("thread/resume") {
      ThreadPins(c, s, outer, frame, true);
    }
  }

  lemma CommitPins(s: Chan, outer: int, frame: Json)
    ensures CommitStep(s, outer, frame).0.workspace == s.workspace
  {
  }

  lemma ProviderPins(c: Config, s: Chan, frame: Json)
    ensures ProviderStep(c, s, frame).0.workspace == s.workspace
  {
    if s.pending.Some? {
      AbsorbPins(s, s.pending.value.kind, frame.Get("result"));
    }
  }

  lemma AbsorbPins(s: Chan, kind: Kind, result: Json)
    ensures Absorb(s, kind, result).workspace == s.workspace
  {
  }

  lemma ClientPins(c: Config, s: Chan, request: Json, drawn: string)
    ensures Allowed(c, s.workspace, Str(ClientStep(c, s, request, drawn).0.workspace))
  {
    if Envelope(s, request) && s.handle.Some? && OwnedRequest(Burned(s, request), request) {
      OwnedPins(c, Burned(s, request), request.Get("id").n, request.Get("method").s,
          request.Get("params").Get("frame"));
    }
  }

  lemma StepPins(c: Config, s: Chan, input: Input)
    ensures Allowed(c, s.workspace, Str(Step(c, s, input).0.workspace))
  {
    match input
    case FromClient(request, drawn) =>
      ClientPins(c, s, request, drawn);
    case FromProvider(frame) =>
      ProviderPins(c, s, frame);
  }

  /** Over every run, refused requests included, the workspace stays among the pinned directories. */
  lemma {:induction false} WorkspaceIsPinned(c: Config, workspace: string, inputs: seq<Input>)
    ensures Allowed(c, workspace, Str(Run(c, Fresh(workspace), inputs).0.workspace))
  {
    if inputs != [] {
      WorkspaceIsPinned(c, workspace, inputs[..|inputs| - 1]);
      StepPins(c, Run(c, Fresh(workspace), inputs[..|inputs| - 1]).0, inputs[|inputs| - 1]);
    }
  }
}
