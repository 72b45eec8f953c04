/**
 * The owned-session protocol (v2/provider-broker/protocol.py) as a state machine over client and
 * provider frames. Tool routes are disabled. A refusal keeps the fields it had already updated.
 */
module Protocol {
  import opened Common
  import opened JsonValues
  import opened Strings

  const PROTOCOL := "orkestr-v2-provider-broker-v1"

  datatype Failure =
    | PROTOCOL_REFUSED | LATE_TURN_STARTED | LATE_TURN_COMPLETED | LATE_AGENT_DELTA | BEFORE_COMMIT
    | FOREIGN_THREAD | RETIRED_TURN | TURN_MISMATCH | UNEXPECTED_RESPONSE | RESPONSE_CORRELATION
    | TURN_SCHEMA | UNSUPPORTED_TOOL | PROVIDER_OUTER

  datatype Stage = New | InitializeReplied | Initialized | Subscription | Ready

  datatype Kind = Initialize | AccountRead | ThreadStart | ThreadResume | TurnStart | TurnSteer | TurnInterrupt

  datatype Pending = Pending(outer: int, inner: Json, kind: Kind)

  /** What the operator fixed when the channel was made. */
  datatype Config = Config(expectedNative: Option<string>, hostFullAccess: bool, workspaces: set<string>)

  predicate ValidConfig(c: Config) {
    && (c.workspaces != {} ==> c.hostFullAccess)
    && (forall path <- c.workspaces :: path != "" && path[0] == '/' && '\0' !in path)
    && (c.expectedNative.Some? ==> Identifier(Str(c.expectedNative.value)))
  }

  datatype Chan = Chan(
    workspace: string, handle: Option<string>, role: string, stage: Stage, pending: Option<Pending>,
    seen: set<int>, lastOuter: int, retired: set<string>, lastTurnInner: int, native: Option<string>,
    committed: bool, turn: Option<string>, terminal: bool, messages: set<string>, cancelled: bool,
    steerIds: set<string>)

  function Fresh(workspace: string): Chan {
    Chan(workspace, None, "", New, None, {}, 0, {}, 0, None, false, None, false, {}, false, {})
  }

  datatype Reply = Reply(id: int, result: Json)

  datatype ClientOut = Refused | Accepted(frame: Option<Json>, reply: Option<Reply>)

  datatype ProviderOut =
    | Fail(failure: Failure)
    | Ignored
    | Notify(name: string, turnId: string, frame: Json)
    | Answer(reply: Reply)

  // ---------- client requests ----------

  predicate Envelope(s: Chan, request: Json) {
    && Exact(request, {"id", "method", "params"})
    && request.Get("id").Int? && 0 < request.Get("id").n < 0x20000000000000 && request.Get("id").n !in s.seen
    && |s.seen| < 256 && request.Get("id").n > s.lastOuter
  }

  predicate OpenRequest(request: Json) {
    var params, identity := request.Get("params"), request.Get("params").Get("identity");
    && request.Get("method") == Str("OpenOwnedSession")
    && Exact(params, {"protocol", "identity"}) && params.Get("protocol") == Str(PROTOCOL)
    && Exact(identity, {"provider", "role", "owner_id", "session_id", "namespace", "incarnation"})
    && identity.Get("provider") == Str("codex")
    && (forall k <- identity.fields.Keys :: Identifier(identity.fields[k]))
    && OneOf(identity.Get("role"), {"fast", "deep", "worker"})
  }

  function OpenReply(outer: int, identity: Json, handle: string): Reply {
    Reply(outer, Obj(map["protocol" := Str(PROTOCOL), "identity" := identity, "metadata_only" := Bool(true),
                         "owned_handle" := Str(handle)]))
  }

  function HandleReply(outer: int, handle: Option<string>, frame: Json): Reply {
    Reply(outer, Obj(map["owned_handle" := Nullable(handle), "frame" := frame]))
  }

  function OpenStep(s: Chan, outer: int, request: Json, drawn: string): (Chan, ClientOut) {
    if !OpenRequest(request) then (s, Refused)
    else
      var identity := request.Get("params").Get("identity");
      (s.(role := identity.Get("role").s, handle := Some(drawn)),
          Accepted(None, Some(OpenReply(outer, identity, drawn))))
  }

  const METHODS := {"BrokerMetadata", "CommitExecution", "CancelExecution", "ToolResult", "SteerExecution"}

  predicate OwnedRequest(s: Chan, request: Json) {
    var params := request.Get("params");
    && Exact(params, {"owned_handle", "frame"}) && params.Get("owned_handle") == Nullable(s.handle)
    && OneOf(request.Get("method"), METHODS)
    && s.pending.None? && params.Get("frame").Obj?
  }

  predicate NumberedFrame(frame: Json) {
    Exact(frame, {"id", "method", "params"}) && frame.Get("id").Int? && frame.Get("id").n > 0
  }

  predicate InitializeParams(params: Json) {
    var info := params.Get("clientInfo");
    && Exact(params, {"clientInfo", "capabilities"}) && Exact(info, {"name", "title", "version"})
    && (forall k <- info.fields.Keys :: Identifier(info.fields[k]))
    && params.Get("capabilities") == Obj(map["experimentalApi" := Bool(false)])
  }

  function SandboxName(c: Config): string {
    if c.hostFullAccess then "danger-full-access" else "read-only"
  }

  function SandboxType(c: Config): string {
    if c.hostFullAccess then "dangerFullAccess" else "readOnly"
  }

  /** A resume request names the expected thread, and otherwise reads as a start request. */
  function ThreadParams(c: Config, resume: bool, params: Json): Option<Json> {
    if !resume then Some(params)
    else if params.Obj? && params.Get("threadId") == Nullable(c.expectedNative)
        && params.Get("excludeTurns") == Bool(true)
            && !params.Has("ephemeral")
    then Some(Obj((params.fields - {"threadId", "excludeTurns"})["ephemeral" := Bool(false)]))
    else None
  }

  /** An operator-pinned directory replaces the workspace before the rest is checked. */
  function WorkspaceFor(c: Config, workspace: string, params: Json): string {
    if params.Get("cwd").Str? && params.Get("cwd").s in c.workspaces then params.Get("cwd").s else workspace
  }

  predicate StartParams(c: Config, workspace: string, params: Json) {
    params == Obj(map["cwd" := Str(workspace), "approvalPolicy" := Str("never"), "sandbox" := Str(SandboxName(c)),
                      "ephemeral" := Bool(false), "modelProvider" := Str("openai")])
  }

  function ThreadRequest(c: Config, s: Chan, outer: int, frame: Json, resume: bool): (Chan, ClientOut) {
    if s.stage != Subscription || resume != c.expectedNative.Some? then (s, Refused)
    else
      var params := ThreadParams(c, resume, frame.Get("params"));
      if params.None? then (s, Refused)
      else
        var s1 := s.(workspace := WorkspaceFor(c, s.workspace, params.value));
        if !StartParams(c, s1.workspace, params.value) then (s1, Refused)
        else Sending(s1, outer, frame, if resume then ThreadResume else ThreadStart)
  }

  function Sending(s: Chan, outer: int, frame: Json, kind: Kind): (Chan, ClientOut) {
    (s.(pending := Some(Pending(outer, frame.Get("id"), kind))), Accepted(Some(frame), None))
  }

  function Handshake(s: Chan, frame: Json): (kind: Option<Kind>) {
    var params := frame.Get("params");
    if frame.Get("method") == Str("initialize") && s.stage == New && InitializeParams(params) then Some(Initialize)
    else if frame.Get("method") == Str("account/read") && s.stage == Initialized
            && params == Obj(map["refreshToken" := Bool(false)]) then Some(AccountRead)
    else None
  }

  function MetadataStep(c: Config, s: Chan, outer: int, frame: Json): (Chan, ClientOut) {
    if frame.Get("method") == Str("initialized") then
      if Exact(frame, {"method"}) && s.stage == InitializeReplied then
        (s.(stage := Initialized), Accepted(Some(frame), Some(HandleReply(outer, s.handle, Null))))
      else (s, Refused)
    else if !NumberedFrame(frame) then (s, Refused)
    else if frame.Get("method") == Str("thread/start") then ThreadRequest(c, s, outer, frame, false)
    else if frame.Get("method") == Str("thread/resume") then ThreadRequest(c, s, outer, frame, true)
    else
      match Handshake(s, frame)
      case Some(kind) => Sending(s, outer, frame, kind)
      case None => (s, Refused)
  }

  predicate RunningTurn(s: Chan) {
    s.committed && s.turn.Some? && !s.terminal && !s.cancelled
  }

  predicate SteerFrame(s: Chan, frame: Json) {
    var params := frame.Get("params");
    && Exact(frame, {"id", "method", "params"}) && frame.Get("id").Str? && CanonicalUuid(frame.Get("id").s)
    && frame.Get("id").s !in s.steerIds && |s.steerIds| < 128 && frame.Get("method") == Str("turn/steer")
    && Exact(params, {"threadId", "expectedTurnId", "input"})
    && params.Get("threadId") == Nullable(s.native) && params.Get("expectedTurnId") == Nullable(s.turn)
    && TextInput(params.Get("input"))
    && var text := params.Get("input").items[0].Get("text").s; 0 < Utf8Length(text) <= 32768 && '\0' !in text
  }

  function SteerStep(s: Chan, outer: int, frame: Json): (Chan, ClientOut) {
    if s.role in {"fast", "deep"} && RunningTurn(s) && SteerFrame(s, frame)
    then Sending(s.(steerIds := s.steerIds + {frame.Get("id").s}), outer, frame, TurnSteer)
    else (s, Refused)
  }

  predicate CancelFrame(s: Chan, frame: Json) {
    && NumberedFrame(frame) && frame.Get("method") == Str("turn/interrupt")
    && frame.Get("params") == Obj(map["threadId" := Nullable(s.native), "turnId" := Nullable(s.turn)])
  }

  function CancelStep(s: Chan, outer: int, frame: Json): (Chan, ClientOut) {
    if RunningTurn(s) && CancelFrame(s, frame)
    then Sending(s.(cancelled := true), outer, frame, TurnInterrupt)
    else (s, Refused)
  }

  const EFFORTS := {"none", "minimal", "low", "medium", "high", "xhigh", "max", "ultra"}

  predicate ModelOverride(v: Json) {
    && v.Str? && 0 < |v.s| <= 120 && !Digits(v.s)
    && (forall c <- v.s :: AsciiAlnum(c) || c in "._:-")
    && Lower(v.s) !in {"openai", "azure", "openrouter"}
  }

  predicate TurnFrame(native: Option<string>, frame: Json) {
    var params := frame.Get("params");
    var overrides :=
        (if params.Has("model") then {"model"} else {}) + (if params.Has("effort") then {"effort"} else {});
    && NumberedFrame(frame) && frame.Get("method") == Str("turn/start")
    && (params.Has("model") ==> ModelOverride(params.Get("model")))
    && (params.Has("effort") ==> OneOf(params.Get("effort"), EFFORTS))
    && Exact(params, {"threadId", "clientUserMessageId", "input"} + overrides)
    && params.Get("threadId") == Nullable(native) && Identifier(params.Get("clientUserMessageId"))
    && TextInput(params.Get("input"))
  }

  function MessageOf(frame: Json): Json {
    frame.Get("params").Get("clientUserMessageId")
  }

  function CommitStep(s: Chan, outer: int, frame: Json): (Chan, ClientOut) {
    if !(s.stage == Ready && (!s.committed || s.terminal)) || !TurnFrame(s.native, frame)
        || frame.Get("id").n <= s.lastTurnInner
    then (s, Refused)
    else StartTurn(s.(lastTurnInner := frame.Get("id").n), outer, frame, MessageOf(frame).s)
  }

  /** The turn number is spent; the message must be new. The previous turn is retired. */
  function StartTurn(s: Chan, outer: int, frame: Json, message: string): (Chan, ClientOut) {
    if message in s.messages || |s.messages| >= 256 then (s, Refused)
    else
      Sending(s.(messages := s.messages + {message},
                 retired := if s.turn.Some? then s.retired + {s.turn.value} else s.retired,
                 turn := None, terminal := false, cancelled := false, committed := true),
              outer, frame, TurnStart)
  }

  function Burned(s: Chan, request: Json): Chan
    requires Envelope(s, request)
  {
    s.(lastOuter := request.Get("id").n, seen := s.seen + {request.Get("id").n})
  }

  /** One client frame; `drawn` is the random handle drawn if a session opens. */
  function ClientStep(c: Config, s: Chan, request: Json, drawn: string): (Chan, ClientOut) {
    if !Envelope(s, request) then (s, Refused)
    else
      var s1, outer := Burned(s, request), request.Get("id").n;
      if s.handle.None? then OpenStep(s1, outer, request, drawn)
      else if !OwnedRequest(s1, request) then (s1, Refused)
      else OwnedStep(c, s1, outer, request.Get("method").s, request.Get("params").Get("frame"))
  }

  function OwnedStep(c: Config, s: Chan, outer: int, name: string, frame: Json): (Chan, ClientOut) {
    if name == "BrokerMetadata" then MetadataStep(c, s, outer, frame)
    else if name == "SteerExecution" then SteerStep(s, outer, frame)
    else if name == "CancelExecution" then CancelStep(s, outer, frame)
    else if name == "CommitExecution" then CommitStep(s, outer, frame)
    else (s, Refused)  // ToolResult: no tool route is enabled.
  }

  // ---------- provider notifications ----------

  const ITEM_EVENTS := {"item/started", "item/completed"}
  const TURN_EVENTS := {"turn/started", "turn/completed", "item/agentMessage/delta", "model/rerouted"}
  const STATUSES := {"inProgress", "completed", "failed", "interrupted"}

  predicate ReportedModel(v: Json) {
    v.Str? && 0 < |v.s| <= 120 && forall c <- v.s :: AsciiAlnum(c) || c in "-_.:/"
  }

  predicate AgentItem(v: Json) {
    && v.Get("type") == Str("agentMessage") && Identifier(v.Get("id"))
    && v.Get("text").Str? && Utf8Length(v.Get("text").s) <= 8192
    && (v.Get("phase") == Null || OneOf(v.Get("phase"), {"commentary", "partial_answer", "final_answer"}))
    && (v.Get("delivery") == Null || v.Get("delivery") == Str("async"))
  }

  function CleanItem(v: Json): Json {
    var base := map["type" := Str("agentMessage"), "id" := v.Get("id"), "text" := v.Get("text"), "phase" :=
        v.Get("phase")];
    Obj(if v.Get("delivery") == Str("async") then base["delivery" := Str("async")] else base)
  }

  /** A notification that passed its schema: the turn it names, and the part that is forwarded. */
  datatype Note = Note(turnId: string, status: string, clean: Json)

  function DeltaNote(params: Json): Option<Note> {
    if Identifier(params.Get("turnId")) && params.Get("delta").Str? && Utf8Length(params.Get("delta").s) <= 8192
       && (params.Has("itemId") ==> Identifier(params.Get("itemId")))
    then
      var clean :=
          map["threadId" := params.Get("threadId"), "turnId" := params.Get("turnId"), "delta" := params.Get("delta")];
      Some(Note(params.Get("turnId").s, "",
          Obj(if params.Has("itemId") then clean["itemId" := params.Get("itemId")] else clean)))
    else None
  }

  function ReroutedNote(params: Json): Option<Note> {
    if Identifier(params.Get("turnId")) && ReportedModel(params.Get("toModel")) then
      Some(Note(params.Get("turnId").s, "",
                Obj(map["threadId" := params.Get("threadId"), "turnId" := params.Get("turnId"), "toModel" :=
                    params.Get("toModel")])))
    else None
  }

  function ItemNote(params: Json): Option<Note> {
    if Identifier(params.Get("turnId")) && AgentItem(params.Get("item")) then
      Some(Note(params.Get("turnId").s, "",
                Obj(map["threadId" := params.Get("threadId"), "turnId" := params.Get("turnId"), "item" :=
                    CleanItem(params.Get("item"))])))
    else None
  }

  predicate TurnItems(turn: Json) {
    var items := turn.Get("items");
    && items.Arr? && |items.items| <= 128
    && (forall item <- items.items :: item.Obj? && (item.Get("type") == Str("agentMessage") ==> AgentItem(item)))
    && (turn.Has("itemsView") ==> OneOf(turn.Get("itemsView"), {"full", "summary", "notLoaded"}))
  }

  function CleanItems(items: seq<Json>): seq<Json> {
    if items == [] then []
    else (if items[0].Get("type") == Str("agentMessage") then [CleanItem(items[0])] else []) + CleanItems(items[1..])
  }

  function TurnNote(name: string, params: Json): Option<Note> {
    var turn := params.Get("turn");
    if !turn.Obj? || !Identifier(turn.Get("id")) || !OneOf(turn.Get("status"), STATUSES) then None
    else
      var clean := map["id" := turn.Get("id"), "status" := turn.Get("status")];
      if name == "turn/completed" && turn.Has("items") then
        if !TurnItems(turn) then None
        else Some(Note(turn.Get("id").s, turn.Get("status").s,
                       Obj(map["threadId" := params.Get("threadId"),
                               "turn" := Obj(clean["items" := Arr(CleanItems(turn.Get("items").items))]
                                                  ["itemsView" := if turn.Has("itemsView") then turn.Get("itemsView")
                                                      else Str("full")])])))
      else Some(Note(turn.Get("id").s, turn.Get("status").s,
                     Obj(map["threadId" := params.Get("threadId"), "turn" := Obj(clean)])))
  }

  function ReadNote(name: string, params: Json): Option<Note> {
    if name == "item/agentMessage/delta" then DeltaNote(params)
    else if name == "model/rerouted" then ReroutedNote(params)
    else if name in ITEM_EVENTS then ItemNote(params)
    else TurnNote(name, params)
  }

  function LateFailure(name: string): Failure {
    if name == "turn/started" then LATE_TURN_STARTED
    else if name == "turn/completed" then LATE_TURN_COMPLETED
    else if name == "item/agentMessage/delta" then LATE_AGENT_DELTA
    else PROTOCOL_REFUSED
  }

  /** Under host full access, another thread's events are internal to the turn. */
  predicate ForeignThread(c: Config, s: Chan, params: Json) {
    && c.hostFullAccess && s.native.Some?
    && params.Get("threadId").Str? && params.Get("threadId").s != "" && params.Get("threadId").s != s.native.value
  }

  /** A notification before it is read against the turn: ignored, failed, or of interest. */
  datatype Triage = Drop | Bad(failure: Failure) | Turnwise(name: string, params: Json)

  function TriageNote(c: Config, s: Chan, frame: Json): Triage {
    if !frame.Get("method").Str? || !frame.Has("params") then Bad(PROVIDER_OUTER)
    else
      var name, params := frame.Get("method").s, frame.Get("params");
      if name in ITEM_EVENTS && !params.Get("item").Obj? then Bad(TURN_SCHEMA)
      else if name in ITEM_EVENTS && params.Get("item").Get("type") != Str("agentMessage") then Drop
      else if name !in ITEM_EVENTS && name !in TURN_EVENTS then Drop
      else if ForeignThread(c, s, params) then Drop
      else if !s.committed then Bad(BEFORE_COMMIT)
      else if s.terminal then Bad(LateFailure(name))
      else if !params.Obj? then Bad(TURN_SCHEMA)
      else if params.Get("threadId") != Nullable(s.native) then Bad(FOREIGN_THREAD)
      else Turnwise(name, params)
  }

  /** A well-formed notification moves the turn it belongs to. */
  function ApplyNote(s: Chan, name: string, note: Note): (Chan, ProviderOut) {
    if note.turnId in s.retired then (s, Fail(RETIRED_TURN))
    else if s.turn.Some? && s.turn.value != note.turnId then (s, Fail(TURN_MISMATCH))
    else
      var s1 := s.(turn := Some(note.turnId));
      if name == "turn/completed" && note.status == "inProgress" then (s1, Fail(PROTOCOL_REFUSED))
      else
        (if name == "turn/completed" then s1.(terminal := true) else s1,
         Notify(name, note.turnId, Obj(map["method" := Str(name), "params" := note.clean])))
  }

  function NotificationStep(c: Config, s: Chan, frame: Json): (Chan, ProviderOut) {
    match TriageNote(c, s, frame)
    case Drop => (s, Ignored)
    case Bad(failure) => (s, Fail(failure))
    case Turnwise(name, params) =>
      var note := ReadNote(name, params);
      if note.None? then (s, Fail(TURN_SCHEMA)) else ApplyNote(s, name, note.value)
  }

  // ---------- provider responses ----------

  predicate AccountResult(result: Json) {
    result.Get("requiresOpenaiAuth") == Bool(true) && result.Get("account").Get("type") == Str("chatgpt")
  }

  predicate InitializeResult(result: Json) {
    forall k <- {"userAgent", "platformFamily", "platformOs", "codexHome"} :: Identifier(result.Get(k))
  }

  predicate ThreadResult(c: Config, s: Chan, resume: bool, result: Json) {
    var thread, sandbox := result.Get("thread"), result.Get("sandbox");
    && thread.Obj?
    && (resume && thread.Has("turns") ==> thread.Get("turns") == Arr([]))
    && result.Get("modelProvider") == thread.Get("modelProvider") == Str("openai")
    && Identifier(thread.Get("id")) && thread.Get("ephemeral") == Bool(false)
    && (c.expectedNative.Some? ==> thread.Get("id").s == c.expectedNative.value)
    && thread.Get("cwd") == Str(s.workspace) && result.Get("cwd") == Str(s.workspace)
    && result.Get("approvalPolicy") == Str("never")
    && sandbox.Get("type") == Str(SandboxType(c))
    && (c.hostFullAccess || !sandbox.Has("networkAccess") || sandbox.Get("networkAccess") == Bool(false))
  }

  predicate TurnResult(s: Chan, result: Json) {
    var turn := result.Get("turn");
    && Identifier(turn.Get("id")) && turn.Get("status") == Str("inProgress")
    && (s.turn.Some? ==> s.turn.value == turn.Get("id").s)
  }

  predicate SteerResult(s: Chan, result: Json) {
    !s.terminal && !s.cancelled && Exact(result, {"turnId"}) && result.Get("turnId") == Nullable(s.turn)
  }

  predicate GoodResult(c: Config, s: Chan, kind: Kind, result: Json) {
    match kind
    case Initialize => InitializeResult(result)
    case AccountRead => AccountResult(result)
    case ThreadStart => ThreadResult(c, s, false, result)
    case ThreadResume => ThreadResult(c, s, true, result)
    case TurnStart => TurnResult(s, result)
    case TurnSteer => SteerResult(s, result)
    case TurnInterrupt => Exact(result, {})
  }

  /** What a good result changes, before the request is closed. */
  function Absorb(s: Chan, kind: Kind, result: Json): Chan {
    match kind
    case Initialize => s.(stage := InitializeReplied)
    case AccountRead => s.(stage := Subscription)
    case ThreadStart => ThreadReady(s, result)
    case ThreadResume => ThreadReady(s, result)
    case TurnStart => if result.Get("turn").Get("id").Str? then s.(turn := Some(result.Get("turn").Get("id").s)) else s
    case _ => s
  }

  function ThreadReady(s: Chan, result: Json): Chan {
    if result.Get("thread").Get("id").Str? then s.(native := Some(result.Get("thread").Get("id").s), stage := Ready)
        else s
  }

  /** The sanitized frame that goes back to the client. */
  function Sanitized(c: Config, s: Chan, inner: Json, kind: Kind, result: Json): Json {
    Obj(map["id" := inner, "result" := Obj(
          match kind
          case Initialize =>
              map["userAgent" := result.Get("userAgent"), "platformFamily" := result.Get("platformFamily"),
                                 "platformOs" := result.Get("platformOs"), "codexHome" := Str("broker-private")]
          case AccountRead => map["requiresOpenaiAuth" := Bool(true), "account" := Obj(map["type" := Str("chatgpt")])]
          case ThreadStart => CleanThread(c, s, result)
          case ThreadResume => CleanThread(c, s, result)
          case TurnStart => map["turn" := Obj(map["id" := result.Get("turn").Get("id"), "status" := Str("inProgress")])]
          case TurnSteer => map["turnId" := Nullable(s.turn)]
          case TurnInterrupt => map[])])
  }

  function CleanThread(c: Config, s: Chan, result: Json): map<string, Json> {
    var thread := result.Get("thread");
    var clean := map[
      "thread" := Obj(map["id" := thread.Get("id"), "cwd" := thread.Get("cwd"), "ephemeral" := thread.Get("ephemeral"),
                          "modelProvider" := thread.Get("modelProvider")]),
      "cwd" := Str(s.workspace), "approvalPolicy" := Str("never"), "modelProvider" := Str("openai"),
      "sandbox" := Obj(if c.hostFullAccess then map["type" := Str("dangerFullAccess")]
                       else map["type" := Str("readOnly"), "networkAccess" := Bool(false)])];
    if ReportedModel(result.Get("model")) then clean["model" := result.Get("model")] else clean
  }

  function ResponseStep(c: Config, s: Chan, frame: Json): (Chan, ProviderOut) {
    if s.pending.None? then (s, Fail(UNEXPECTED_RESPONSE))
    else if !Exact(frame, {"id", "result"}) then (s, Fail(PROTOCOL_REFUSED))
    else if frame.Get("id") != s.pending.value.inner then (s, Fail(RESPONSE_CORRELATION))
    else
      var Pending(outer, inner, kind) := s.pending.value;
      var result := frame.Get("result");
      if !result.Obj? || !GoodResult(c, s, kind, result) then (s, Fail(PROTOCOL_REFUSED))
      else (Absorb(s, kind, result).(pending := None),
            Answer(HandleReply(outer, s.handle, Sanitized(c, s, inner, kind, result))))
  }

  function ProviderStep(c: Config, s: Chan, frame: Json): (Chan, ProviderOut) {
    if !frame.Obj? then (s, Fail(PROVIDER_OUTER))
    else if frame.Get("method") == Str("item/tool/call") then (s, Fail(UNSUPPORTED_TOOL))
    else if !frame.Has("id") then NotificationStep(c, s, frame)
    else ResponseStep(c, s, frame)
  }
}
