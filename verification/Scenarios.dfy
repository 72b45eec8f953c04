/**
 * Runs of the owned-session protocol that exist: the handshake can be completed from a fresh channel,
 * turns can follow, and both dead ends can be reached.
 */
module Scenarios {
  import opened Common
  import opened Strings
  import opened JsonValues
  import opened Protocol
  import opened ProtocolMoves
  import opened ProtocolRuns
  import opened DeadSessions

  lemma RunLast(c: Config, s: Chan, inputs: seq<Input>, before: seq<Input>, last: Input)
    requires inputs == before + [last]
    ensures Run(c, s, inputs).0 == Step(c, Run(c, s, before).0, last).0
  {
    assert inputs[..|inputs| - 1] == before;
  }

  /** Equal states stay equal under the same input. */
  lemma RunSame(c: Config, s: Chan, a: seq<Input>, x: seq<Input>, t: Chan, b: seq<Input>, y: seq<Input>, last: Input)
    requires Run(c, s, a).0 == Run(c, t, b).0 && x == a + [last] && y == b + [last]
    ensures Run(c, s, x).0 == Run(c, t, y).0
  {
    RunLast(c, s, x, a, last);
    RunLast(c, t, y, b, last);
  }

  lemma OneMore(c: Config, s: Chan, inputs: seq<Input>, x: Input)
    ensures Run(c, s, inputs + [x]).0 == Run(c, Run(c, s, inputs).0, [x]).0
  {
    var last := Run(c, s, inputs).0;
    assert Run(c, last, []).0 == last;
    RunSame(c, s, inputs, inputs + [x], last, [], [x], x);
  }

  lemma TwoMore(c: Config, s: Chan, inputs: seq<Input>, x: Input, y: Input)
    ensures Run(c, s, inputs + [x, y]).0 == Run(c, Run(c, s, inputs).0, [x, y]).0
  {
    OneMore(c, s, inputs, x);
    RunSame(c, s, inputs + [x], inputs + [x, y], Run(c, s, inputs).0, [x], [x, y], y);
  }

  // ---------- requests ----------

  function OpenFrame(): Json {
    Obj(map["id" := Int(1), "method" := Str("OpenOwnedSession"),
            "params" := Obj(map["protocol" := Str(PROTOCOL), "identity" := Obj(map[
              "provider" := Str("codex"), "role" := Str("fast"), "owner_id" := Str("o"), "session_id" := Str("s"),
              "namespace" := Str("n"), "incarnation" := Str("i")])])])
  }

  function Owned(outer: int, name: string, handle: string, frame: Json): Json {
    Obj(map["id" := Int(outer), "method" := Str(name),
            "params" := Obj(map["owned_handle" := Str(handle), "frame" := frame])])
  }

  /** A channel that has used up `used` client numbers and waits for nothing. */
  predicate Idle(s: Chan, handle: string, used: nat) {
    Inv(s) && s.handle == Some(handle) && s.pending.None? && s.lastOuter == used && |s.seen| <= used < 255
  }

  /** The channel once the next request has burned its number. */
  function Spent(s: Chan, used: nat): Chan {
    s.(lastOuter := used + 1, seen := s.seen + {used + 1})
  }

  /** A well-numbered request under the right handle reaches its method. */
  lemma OwnedIsDispatched(c: Config, s: Chan, handle: string, used: nat, name: string, frame: Json, drawn: string)
    requires Idle(s, handle, used) && name in METHODS && frame.Obj?
    ensures ClientStep(c, s, Owned(used + 1, name, handle, frame), drawn)
            == OwnedStep(c, Spent(s, used), used + 1, name, frame)
  {
    var request := Owned(used + 1, name, handle, frame);
    assert Exact(request, {"id", "method", "params"});
    assert Exact(request.Get("params"), {"owned_handle", "frame"});
    assert Envelope(s, request);
    assert Burned(s, request) == Spent(s, used);
    assert OwnedRequest(Spent(s, used), request);
  }

  lemma OpenIsAccepted(c: Config, workspace: string, drawn: string)
    ensures var t := ClientStep(c, Fresh(workspace), OpenFrame(), drawn).0;
            t == Fresh(workspace).(lastOuter := 1, seen := {1}, role := "fast", handle := Some(drawn))
                && Idle(t, drawn, 1)
  {
    OpenFrameIsGood();
    assert Envelope(Fresh(workspace), OpenFrame());
  }

  lemma OpenFrameIsGood()
    ensures Exact(OpenFrame(), {"id", "method", "params"}) && OpenRequest(OpenFrame())
  {
    var params := OpenFrame().Get("params");
    assert Exact(params, {"protocol", "identity"});
    assert Exact(params.Get("identity"), {"provider", "role", "owner_id", "session_id", "namespace", "incarnation"});
  }

  /** A request and its answer, given what each does. */
  lemma Exchange(c: Config, s: Chan, handle: string, used: nat, name: string, frame: Json, reply: Json, mid: Chan,
                 last: Chan)
    requires Idle(s, handle, used) && used < 254 && name in METHODS && frame.Obj?
    requires OwnedStep(c, Spent(s, used), used + 1, name, frame).0 == mid
    requires ProviderStep(c, mid, reply).0 == last
    requires last.pending.None? && last.handle == s.handle && last.lastOuter == used + 1
             && last.seen == Spent(s, used).seen
    ensures Run(c, s, [FromClient(Owned(used + 1, name, handle, frame), ""), FromProvider(reply)]).0 == last
    ensures Idle(last, handle, used + 1)
  {
    var ask := FromClient(Owned(used + 1, name, handle, frame), "");
    OwnedIsDispatched(c, s, handle, used, name, frame, "");
    OneStep(c, s, ask);
    RunLast(c, s, [ask, FromProvider(reply)], [ask], FromProvider(reply));
    RunKeepsInv(c, s, [ask, FromProvider(reply)]);
  }

  // ---------- the handshake ----------

  function Request(name: string, params: Json): Json {
    Obj(map["id" := Int(1), "method" := Str(name), "params" := params])
  }

  function Result(result: Json): Json {
    Obj(map["id" := Int(1), "result" := result])
  }

  function InitializeFrame(): Json {
    Request("initialize",
        Obj(map["clientInfo" := Obj(map["name" := Str("n"), "title" := Str("t"), "version" := Str("v")]),
                                  "capabilities" := Obj(map["experimentalApi" := Bool(false)])]))
  }

  function InitializeReply(): Json {
    Result(Obj(map["userAgent" := Str("a"), "platformFamily" := Str("f"), "platformOs" := Str("o"), "codexHome" :=
        Str("h")]))
  }

  /** A good result under the number that is awaited is taken. */
  lemma Answered(c: Config, s: Chan, frame: Json, result: Json)
    requires s.pending.Some? && frame == Obj(map["id" := s.pending.value.inner, "result" := result])
    requires result.Obj? && GoodResult(c, s, s.pending.value.kind, result)
    ensures ProviderStep(c, s, frame).0 == Absorb(s, s.pending.value.kind, result).(pending := None)
  {
    assert Exact(frame, {"id", "result"}) && !frame.Has("method");
  }

  lemma InitializeRuns(c: Config, s: Chan, handle: string, used: nat)
    requires Idle(s, handle, used) && used < 254 && s.stage == New
    ensures var inputs :=
            [FromClient(Owned(used + 1, "BrokerMetadata", handle, InitializeFrame()), ""),
                FromProvider(InitializeReply())];
            var t := Spent(s, used).(stage := InitializeReplied);
            Run(c, s, inputs).0 == t && Idle(t, handle, used + 1)
  {
    var frame, s1 := InitializeFrame(), Spent(s, used);
    InitializeIsAsked(c, s1, used + 1);
    var mid := s1.(pending := Some(Pending(used + 1, Int(1), Initialize)));
    InitializeAnswered(c, mid);
    Exchange(c, s, handle, used, "BrokerMetadata", frame, InitializeReply(), mid, s1.(stage := InitializeReplied));
  }

  lemma InitializeIsAsked(c: Config, s: Chan, outer: int)
    requires s.stage == New
    ensures OwnedStep(c, s, outer, "BrokerMetadata", InitializeFrame()).0
            == s.(pending := Some(Pending(outer, Int(1), Initialize)))
  {
    var frame := InitializeFrame();
    assert NumberedFrame(frame);
    var params := frame.Get("params");
    assert Exact(params, {"clientInfo", "capabilities"})
           && Exact(params.Get("clientInfo"), {"name", "title", "version"});
    assert Handshake(s, frame) == Some(Initialize);
  }

  lemma InitializeAnswered(c: Config, s: Chan)
    requires s.pending.Some? && s.pending.value.inner == Int(1) && s.pending.value.kind == Initialize
    ensures ProviderStep(c, s, InitializeReply()).0 == s.(pending := None, stage := InitializeReplied)
  {
    Answered(c, s, InitializeReply(), InitializeReply().Get("result"));
  }

  lemma InitializedRuns(c: Config, s: Chan, handle: string, used: nat)
    requires Idle(s, handle, used) && used < 254 && s.stage == InitializeReplied
    ensures var inputs :=
            [FromClient(Owned(used + 1, "BrokerMetadata", handle, Obj(map["method" := Str("initialized")])), "")];
            var t := Spent(s, used).(stage := Initialized);
            Run(c, s, inputs).0 == t && Idle(t, handle, used + 1)
  {
    var frame := Obj(map["method" := Str("initialized")]);
    var ask := FromClient(Owned(used + 1, "BrokerMetadata", handle, frame), "");
    OwnedIsDispatched(c, s, handle, used, "BrokerMetadata", frame, "");
    InitializedIsTaken(c, Spent(s, used), used + 1);
    OneStep(c, s, ask);
    RunKeepsInv(c, s, [ask]);
  }

  lemma InitializedIsTaken(c: Config, s: Chan, outer: int)
    requires s.stage == InitializeReplied
    ensures OwnedStep(c, s, outer, "BrokerMetadata", Obj(map["method" := Str("initialized")])).0
            == s.(stage := Initialized)
  {
  }

  function AccountFrame(): Json {
    Request("account/read", Obj(map["refreshToken" := Bool(false)]))
  }

  function AccountReply(): Json {
    Result(Obj(map["requiresOpenaiAuth" := Bool(true), "account" := Obj(map["type" := Str("chatgpt")])]))
  }

  lemma AccountRuns(c: Config, s: Chan, handle: string, used: nat)
    requires Idle(s, handle, used) && used < 254 && s.stage == Initialized
    ensures var inputs :=
            [FromClient(Owned(used + 1, "BrokerMetadata", handle, AccountFrame()), ""), FromProvider(AccountReply())];
            var t := Spent(s, used).(stage := Subscription);
            Run(c, s, inputs).0 == t && Idle(t, handle, used + 1)
  {
    var frame, s1 := AccountFrame(), Spent(s, used);
    AccountIsAsked(c, s1, used + 1);
    var mid := s1.(pending := Some(Pending(used + 1, Int(1), AccountRead)));
    AccountAnswered(c, mid);
    Exchange(c, s, handle, used, "BrokerMetadata", frame, AccountReply(), mid, s1.(stage := Subscription));
  }

  lemma AccountIsAsked(c: Config, s: Chan, outer: int)
    requires s.stage == Initialized
    ensures OwnedStep(c, s, outer, "BrokerMetadata", AccountFrame()).0
            == s.(pending := Some(Pending(outer, Int(1), AccountRead)))
  {
    var frame := AccountFrame();
    assert NumberedFrame(frame);
    assert Handshake(s, frame) == Some(AccountRead);
  }

  lemma AccountAnswered(c: Config, s: Chan)
    requires s.pending.Some? && s.pending.value.inner == Int(1) && s.pending.value.kind == AccountRead
    ensures ProviderStep(c, s, AccountReply()).0 == s.(pending := None, stage := Subscription)
  {
    Answered(c, s, AccountReply(), AccountReply().Get("result"));
  }

  function ThreadFrame(c: Config, workspace: string): Json {
    if c.expectedNative.Some?
    then Request("thread/resume",
        Obj(ThreadMap(c, Str(workspace))["threadId" := Str(c.expectedNative.value)]["excludeTurns" := Bool(true)]))
    else Request("thread/start", Obj(ThreadMap(c, Str(workspace))["ephemeral" := Bool(false)]))
  }

  /** The thread the provider answers with. */
  function ThreadId(c: Config): string {
    if c.expectedNative.Some? then c.expectedNative.value else "thread"
  }

  function ThreadReply(c: Config, workspace: string): Json {
    Result(Obj(map[
      "thread" := Obj(map["id" := Str(ThreadId(c)), "cwd" := Str(workspace), "ephemeral" :=
          Bool(false), "modelProvider" := Str("openai")]),
      "cwd" := Str(workspace), "approvalPolicy" := Str("never"), "modelProvider" := Str("openai"),
      "sandbox" := Obj(map["type" := Str(SandboxType(c))])]))
  }

  lemma ThreadIsAsked(c: Config, s: Chan, outer: int)
    requires s.stage == Subscription
    ensures MetadataStep(c, s, outer, ThreadFrame(c, s.workspace)).0
            == s.(pending := Some(Pending(outer, Int(1), if c.expectedNative.Some? then ThreadResume else ThreadStart)))
  {
    if c.expectedNative.Some? {
      ResumeIsAsked(c, s, outer);
    } else {
      StartIsAsked(c, s, outer);
    }
  }

  lemma ResumeIsAsked(c: Config, s: Chan, outer: int)
    requires s.stage == Subscription && c.expectedNative.Some?
    ensures MetadataStep(c, s, outer, ThreadFrame(c, s.workspace)).0
            == s.(pending := Some(Pending(outer, Int(1), ThreadResume)))
  {
    assert NumberedFrame(ThreadFrame(c, s.workspace));
    ResumeIsExact(c, s, outer, ThreadFrame(c, s.workspace));
  }

  lemma StartIsAsked(c: Config, s: Chan, outer: int)
    requires s.stage == Subscription && c.expectedNative.None?
    ensures MetadataStep(c, s, outer, ThreadFrame(c, s.workspace)).0
            == s.(pending := Some(Pending(outer, Int(1), ThreadStart)))
  {
    assert NumberedFrame(ThreadFrame(c, s.workspace));
    StartIsExact(c, s, outer, ThreadFrame(c, s.workspace));
  }

  lemma ThreadReplyIsGood(c: Config, s: Chan)
    requires ValidConfig(c)
    ensures ThreadResult(c, s, c.expectedNative.Some?, ThreadReply(c, s.workspace).Get("result"))
  {
    var result := ThreadReply(c, s.workspace).Get("result");
    assert !result.Get("thread").Has("turns") && !result.Get("sandbox").Has("networkAccess");
  }

  lemma ThreadAnswered(c: Config, s: Chan)
    requires ValidConfig(c) && s.pending.Some? && s.pending.value.inner == Int(1)
    requires s.pending.value.kind == if c.expectedNative.Some? then ThreadResume else ThreadStart
    ensures ProviderStep(c, s, ThreadReply(c, s.workspace)).0
            == s.(pending := None, stage := Ready, native := Some(ThreadId(c)))
  {
    ThreadReplyIsGood(c, s);
    var result := ThreadReply(c, s.workspace).Get("result");
    ThreadIsReady(c, s, result);
    Answered(c, s, ThreadReply(c, s.workspace), result);
  }

  lemma ThreadIsReady(c: Config, s: Chan, result: Json)
    requires result.Get("thread").Get("id") == Str(ThreadId(c))
    ensures ThreadReady(s, result) == s.(stage := Ready, native := Some(ThreadId(c)))
  {
  }

  lemma ThreadRuns(c: Config, s: Chan, handle: string, used: nat)
    requires ValidConfig(c) && Idle(s, handle, used) && used < 254 && s.stage == Subscription
    ensures var inputs := [FromClient(Owned(used + 1, "BrokerMetadata", handle, ThreadFrame(c, s.workspace)), ""),
                           FromProvider(ThreadReply(c, s.workspace))];
            var t := Spent(s, used).(stage := Ready, native := Some(ThreadId(c)));
            Run(c, s, inputs).0 == t && Idle(t, handle, used + 1)
  {
    var s1 := Spent(s, used);
    ThreadIsAsked(c, s1, used + 1);
    var mid := s1.(pending :=
        Some(Pending(used + 1, Int(1), if c.expectedNative.Some? then ThreadResume else ThreadStart)));
    ThreadAnswered(c, mid);
    Exchange(c, s, handle, used, "BrokerMetadata", ThreadFrame(c, s.workspace), ThreadReply(c, s.workspace), mid,
             s1.(stage := Ready, native := Some(ThreadId(c))));
  }

  lemma ByOne(c: Config, s: Chan, inputs: seq<Input>, x: Input) returns (all: seq<Input>)
    ensures Run(c, s, all).0 == Run(c, Run(c, s, inputs).0, [x]).0
  {
    OneMore(c, s, inputs, x);
    all := inputs + [x];
  }

  lemma ByTwo(c: Config, s: Chan, inputs: seq<Input>, x: Input, y: Input) returns (all: seq<Input>)
    ensures Run(c, s, all).0 == Run(c, Run(c, s, inputs).0, [x, y]).0
  {
    TwoMore(c, s, inputs, x, y);
    all := inputs + [x, y];
  }

  /** From a fresh channel a session can always be opened and made ready. */
  lemma HandshakeCompletes(c: Config, workspace: string, handle: string) returns (inputs: seq<Input>)
    requires ValidConfig(c)
    ensures var s := Run(c, Fresh(workspace), inputs).0;
            && Idle(s, handle, 5) && s.stage == Ready && s.role == "fast" && !s.committed
            && s.lastTurnInner == 0 && s.messages == {} && s.steerIds == {} && s.retired == {}
  {
    var s0 := Fresh(workspace);
    OpenIsAccepted(c, workspace, handle);
    inputs := [FromClient(OpenFrame(), handle)];
    OneStep(c, s0, inputs[0]);
    var s1 := Run(c, s0, inputs).0;
    InitializeRuns(c, s1, handle, 1);
    inputs := ByTwo(c, s0, inputs, FromClient(Owned(2, "BrokerMetadata", handle, InitializeFrame()), ""),
        FromProvider(InitializeReply()));
    var s2 := Run(c, s0, inputs).0;
    InitializedRuns(c, s2, handle, 2);
    inputs := ByOne(c, s0, inputs,
        FromClient(Owned(3, "BrokerMetadata", handle, Obj(map["method" := Str("initialized")])), ""));
    var s3 := Run(c, s0, inputs).0;
    AccountRuns(c, s3, handle, 3);
    inputs := ByTwo(c, s0, inputs, FromClient(Owned(4, "BrokerMetadata", handle, AccountFrame()), ""),
        FromProvider(AccountReply()));
    var s4 := Run(c, s0, inputs).0;
    ThreadRuns(c, s4, handle, 4);
    inputs := ByTwo(c, s0, inputs, FromClient(Owned(5, "BrokerMetadata", handle, ThreadFrame(c, s4.workspace)), ""),
                                     FromProvider(ThreadReply(c, s4.workspace)));
  }

  // ---------- turns ----------

  function Input(text: string): Json {
    Arr([Obj(map["type" := Str("text"), "text" := Str(text), "text_elements" := Arr([])])])
  }

  function CommitFrame(s: Chan, message: string): Json {
    Obj(map["id" := Int(s.lastTurnInner + 1), "method" := Str("turn/start"),
            "params" := Obj(map["threadId" := Nullable(s.native), "clientUserMessageId" := Str(message), "input" :=
                Input("go")])])
  }

  /** The channel after a commit of a message and its answer. */
  function Committed(s: Chan, used: nat, message: string, turn: string): Chan {
    Spent(s, used).(lastTurnInner := s.lastTurnInner + 1, messages := s.messages + {message},
                    retired := if s.turn.Some? then s.retired + {s.turn.value} else s.retired,
                    turn := Some(turn), terminal := false, cancelled := false, committed := true)
  }

  lemma CommitFits(s: Chan, message: string)
    requires s.lastTurnInner >= 0 && Identifier(Str(message))
    ensures var frame := CommitFrame(s, message);
            TurnFrame(s.native, frame) && frame.Get("id") == Int(s.lastTurnInner + 1)
                && MessageOf(frame) == Str(message)
  {
    var frame := CommitFrame(s, message);
    assert NumberedFrame(frame);
    var params := frame.Get("params");
    assert !params.Has("model") && !params.Has("effort");
    assert Exact(params, {"threadId", "clientUserMessageId", "input"} + ({} + {}));
    assert Exact(params.Get("input").items[0], {"type", "text", "text_elements"});
  }

  /** The channel once a commit is on its way. */
  function Awaiting(s: Chan, outer: int, message: string): Chan {
    s.(lastTurnInner := s.lastTurnInner + 1, messages := s.messages + {message},
       retired := if s.turn.Some? then s.retired + {s.turn.value} else s.retired,
       turn := None, terminal := false, cancelled := false, committed := true,
       pending := Some(Pending(outer, Int(s.lastTurnInner + 1), TurnStart)))
  }

  predicate TakesCommit(s: Chan, message: string) {
    && s.stage == Ready && (!s.committed || s.terminal) && s.lastTurnInner >= 0
    && Identifier(Str(message)) && message !in s.messages && |s.messages| < 256
  }

  lemma CommitIsSent(s: Chan, outer: int, message: string)
    requires TakesCommit(s, message)
    ensures CommitStep(s, outer, CommitFrame(s, message)).0 == Awaiting(s, outer, message)
  {
    CommitFits(s, message);
    CommitOf(s, outer, CommitFrame(s, message), message);
  }

  lemma CommitOf(s: Chan, outer: int, frame: Json, message: string)
    requires TakesCommit(s, message)
    requires TurnFrame(s.native, frame) && frame.Get("id") == Int(s.lastTurnInner + 1)
             && MessageOf(frame) == Str(message)
    ensures CommitStep(s, outer, frame).0 == Awaiting(s, outer, message)
  {
  }

  lemma CommitAsked(c: Config, s: Chan, outer: int, message: string)
    requires TakesCommit(s, message)
    ensures OwnedStep(c, s, outer, "CommitExecution", CommitFrame(s, message)).0 == Awaiting(s, outer, message)
  {
    var frame := CommitFrame(s, message);
    CommitIsSent(s, outer, message);
    CommitOwned(c, s, outer, frame);
  }

  lemma CommitOwned(c: Config, s: Chan, outer: int, frame: Json)
    ensures OwnedStep(c, s, outer, "CommitExecution", frame) == CommitStep(s, outer, frame)
  {
  }

  lemma SameFrame(s: Chan, used: nat, message: string)
    ensures CommitFrame(Spent(s, used), message) == CommitFrame(s, message)
  {
  }

  lemma CommitAnswered(c: Config, s: Chan, used: nat, message: string, turn: string)
    requires s.pending.None? && Identifier(Str(turn))
    ensures ProviderStep(c, Awaiting(Spent(s, used), used + 1, message), StartReply(Int(s.lastTurnInner + 1), turn)).0
            == Committed(s, used, message, turn)
  {
    var mid := Awaiting(Spent(s, used), used + 1, message);
    StartAnswered(c, mid, turn);
    assert mid.(pending := None, turn := Some(turn)) == Committed(s, used, message, turn);
  }

  /** A ready channel that is between turns takes a new message and starts its turn. */
  lemma CommitRuns(c: Config, s: Chan, handle: string, used: nat, message: string, turn: string)
    requires Idle(s, handle, used) && used < 254 && TakesCommit(s, message) && Identifier(Str(turn))
    ensures var inputs := [FromClient(Owned(used + 1, "CommitExecution", handle, CommitFrame(s, message)), ""),
                           FromProvider(StartReply(Int(s.lastTurnInner + 1), turn))];
            Run(c, s, inputs).0 == Committed(s, used, message, turn)
                && Idle(Committed(s, used, message, turn), handle, used + 1)
  {
    SameFrame(s, used, message);
    CommitAsked(c, Spent(s, used), used + 1, message);
    CommitAnswered(c, s, used, message, turn);
    Exchange(c, s, handle, used, "CommitExecution", CommitFrame(s, message), StartReply(Int(s.lastTurnInner + 1), turn),
             Awaiting(Spent(s, used), used + 1, message), Committed(s, used, message, turn));
  }

  lemma StartAnswered(c: Config, s: Chan, turn: string)
    requires s.pending.Some? && s.pending.value.kind == TurnStart && s.turn.None? && Identifier(Str(turn))
    ensures ProviderStep(c, s, StartReply(s.pending.value.inner, turn)).0 == s.(pending := None, turn := Some(turn))
  {
    var frame := StartReply(s.pending.value.inner, turn);
    assert Exact(frame, {"id", "result"}) && !frame.Has("method");
  }

  lemma CompletionRuns(c: Config, s: Chan, handle: string, used: nat, turn: string)
    requires Idle(s, handle, used) && s.committed && !s.terminal && s.turn == Some(turn) && turn !in s.retired
             && Identifier(Str(turn))
    ensures var inputs := [FromProvider(CompletedNote(s.native, turn))];
            Run(c, s, inputs).0 == s.(terminal := true) && Idle(s.(terminal := true), handle, used)
  {
    var note := FromProvider(CompletedNote(s.native, turn));
    CompletionIsAccepted(c, s, turn);
    OneStep(c, s, note);
    RunKeepsInv(c, s, [note]);
  }

  const UUID := "00000000-0000-0000-0000-000000000000"

  function SteerRequest(s: Chan): Json {
    Obj(map["id" := Str(UUID), "method" := Str("turn/steer"),
            "params" := Obj(map["threadId" := Nullable(s.native), "expectedTurnId" := Nullable(s.turn), "input" :=
                Input("go")])])
  }

  lemma UuidIsCanonical()
    ensures CanonicalUuid(UUID)
  {
    forall i | 0 <= i < 36 ensures if i in {8, 13, 18, 23} then UUID[i] == '-' else UUID[i] == '0' {
    }
  }

  lemma SteerIsSent(s: Chan, outer: int)
    requires s.role == "fast" && RunningTurn(s) && s.steerIds == {}
    ensures SteerStep(s, outer, SteerRequest(s)).0
            == s.(steerIds := {UUID}, pending := Some(Pending(outer, Str(UUID), TurnSteer)))
  {
    var frame := SteerRequest(s);
    UuidIsCanonical();
    var params := frame.Get("params");
    assert Exact(frame, {"id", "method", "params"}) && Exact(params, {"threadId", "expectedTurnId", "input"});
    assert Exact(params.Get("input").items[0], {"type", "text", "text_elements"});
    assert "go"[..1][..0] == "" && "go"[..1] == "g";
    assert Utf8Length("g") == 1 && Utf8Length("go") == 2;
    assert SteerFrame(s, frame);
    assert s.steerIds + {UUID} == {UUID};
  }

  // ---------- the dead ends ----------

  /** A session can be brought to where its only turn is a retired one. */
  lemma RetiredTurnIsReachable(c: Config, workspace: string) returns (inputs: seq<Input>)
    requires ValidConfig(c)
    ensures Retired(Run(c, Fresh(workspace), inputs).0)
  {
    var s0 := Fresh(workspace);
    inputs := HandshakeCompletes(c, workspace, "h");
    var s := Run(c, s0, inputs).0;
    CommitRuns(c, s, "h", 5, "first", "turn");
    inputs := ByTwo(c, s0, inputs, FromClient(Owned(6, "CommitExecution", "h", CommitFrame(s, "first")), ""),
                                     FromProvider(StartReply(Int(s.lastTurnInner + 1), "turn")));
    var s1 := Run(c, s0, inputs).0;
    CompletionRuns(c, s1, "h", 6, "turn");
    inputs := ByOne(c, s0, inputs, FromProvider(CompletedNote(s1.native, "turn")));
    var s2 := Run(c, s0, inputs).0;
    assert "first" != "second";
    CommitRuns(c, s2, "h", 6, "second", "turn");
    inputs := ByTwo(c, s0, inputs, FromClient(Owned(7, "CommitExecution", "h", CommitFrame(s2, "second")), ""),
                                     FromProvider(StartReply(Int(s2.lastTurnInner + 1), "turn")));
  }

  /** Steers the running turn after a run. */
  lemma SteerLast(c: Config, s0: Chan, inputs: seq<Input>, s: Chan, handle: string, used: nat)
    returns (asked: seq<Input>)
    requires s == Run(c, s0, inputs).0 && Idle(s, handle, used)
    requires s.role == "fast" && RunningTurn(s) && s.steerIds == {}
    ensures Run(c, s0, asked).0
            == Spent(s, used).(steerIds := {UUID}, pending := Some(Pending(used + 1, Str(UUID), TurnSteer)))
  {
    var steer := FromClient(Owned(used + 1, "SteerExecution", handle, SteerRequest(s)), "");
    OwnedIsDispatched(c, s, handle, used, "SteerExecution", SteerRequest(s), "");
    SteerIsSent(Spent(s, used), used + 1);
    asked := inputs + [steer];
    RunLast(c, s0, asked, inputs, steer);
  }

  /** Completes the running turn after a run, whatever is still awaited. */
  lemma CompleteLast(c: Config, s0: Chan, asked: seq<Input>, s: Chan, turn: string) returns (inputs: seq<Input>)
    requires s == Run(c, s0, asked).0 && Inv(s) && s.turn == Some(turn) && RunningTurn(s) && turn !in s.retired
             && Identifier(Str(turn))
    requires s.pending.Some? && s.pending.value.kind == TurnSteer
    ensures Wedged(Run(c, s0, inputs).0)
  {
    CompletionOvertakesSteer(c, s);
    var note := FromProvider(CompletedNote(s.native, turn));
    inputs := asked + [note];
    RunLast(c, s0, inputs, asked, note);
  }

  /** A session can be brought to where a steer waits on a completed turn. */
  lemma WedgeIsReachable(c: Config, workspace: string) returns (inputs: seq<Input>)
    requires ValidConfig(c)
    ensures Wedged(Run(c, Fresh(workspace), inputs).0)
  {
    var s0 := Fresh(workspace);
    inputs := HandshakeCompletes(c, workspace, "h");
    var s := Run(c, s0, inputs).0;
    CommitRuns(c, s, "h", 5, "first", "turn");
    inputs := ByTwo(c, s0, inputs, FromClient(Owned(6, "CommitExecution", "h", CommitFrame(s, "first")), ""),
                                     FromProvider(StartReply(Int(s.lastTurnInner + 1), "turn")));
    var s1 := Run(c, s0, inputs).0;
    var asked := SteerLast(c, s0, inputs, s1, "h", 6);
    ReachableInv(c, workspace, asked);
    inputs := CompleteLast(c, s0, asked, Run(c, s0, asked).0, "turn");
  }
}
