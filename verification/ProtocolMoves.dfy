/**
 * The moves of the owned-session protocol without their JSON: every client and provider frame takes
 * the channel through one of these moves, and every reachable state meets the channel invariant.
 */
module ProtocolMoves {
  import opened Common
  import opened JsonValues
  import opened Protocol

  /** What leaves the broker: a request to the provider, a reply to the client, a turn notification. */
  datatype Entry =
    | Sent(request: Pending, frame: Json)
    | Replied(outer: int, closes: Option<Pending>, turn: Option<string>)
    | Noted(name: string, turnId: string)

  datatype Input = FromClient(request: Json, drawn: string) | FromProvider(frame: Json)

  /** The turn a reply to turn/start names. */
  function TurnIn(reply: Reply): Option<string> {
    var id := reply.result.Get("frame").Get("result").Get("turn").Get("id");
    if id.Str? then Some(id.s) else None
  }

  function ClientEntry(after: Chan, out: ClientOut): Option<Entry> {
    match out
    case Refused => None
    case Accepted(frame, reply) =>
      if reply.Some? then Some(Replied(reply.value.id, None, None))
      else if frame.Some? && after.pending.Some? then Some(Sent(after.pending.value, frame.value))
      else None
  }

  function ProviderEntry(before: Chan, out: ProviderOut): Option<Entry> {
    match out
    case Fail(_) => None
    case Ignored => None
    case Notify(name, turnId, _) => Some(Noted(name, turnId))
    case Answer(reply) =>
      Some(Replied(reply.id, before.pending,
                   if before.pending.Some? && before.pending.value.kind == TurnStart then TurnIn(reply) else None))
  }

  function Step(c: Config, s: Chan, input: Input): (Chan, Option<Entry>) {
    match input
    case FromClient(request, drawn) =>
      var (t, out) := ClientStep(c, s, request, drawn);
      (t, ClientEntry(t, out))
    case FromProvider(frame) =>
      var (t, out) := ProviderStep(c, s, frame);
      (t, ProviderEntry(s, out))
  }

  // ---------- the moves ----------

  /** A well-numbered client frame burns its number even when it is then refused. */
  predicate Spends(s: Chan, t: Chan) {
    s.lastOuter < t.lastOuter && t.lastOuter !in s.seen && t.seen == s.seen + {t.lastOuter} && |s.seen| < 256
  }

  predicate Quiet(s: Chan, t: Chan, e: Option<Entry>) {
    && e.None?
    && ((t.lastOuter == s.lastOuter && t.seen == s.seen) || Spends(s, t))
    && s.lastTurnInner <= t.lastTurnInner
    && t == s.(lastOuter := t.lastOuter, seen := t.seen, workspace := t.workspace, lastTurnInner := t.lastTurnInner)
  }

  predicate Opens(s: Chan, t: Chan, e: Option<Entry>) {
    && e == Some(Replied(t.lastOuter, None, None)) && Spends(s, t) && s.handle.None? && t.handle.Some?
    && t == s.(lastOuter := t.lastOuter, seen := t.seen, handle := t.handle, role := t.role)
  }

  predicate Initializes(s: Chan, t: Chan, e: Option<Entry>) {
    && e == Some(Replied(t.lastOuter, None, None)) && Spends(s, t) && s.handle.Some?
    && s.pending.None? && s.stage == InitializeReplied
    && t == s.(lastOuter := t.lastOuter, seen := t.seen, stage := Initialized)
  }

  /** A request is handed on, and waits for its answer. */
  predicate Asks(s: Chan, t: Chan, e: Option<Entry>) {
    && e.Some? && e.value.Sent? && Spends(s, t) && s.handle.Some? && s.pending.None?
    && t.pending == Some(e.value.request) && e.value.request.outer == t.lastOuter
    && e.value.frame.Get("id") == e.value.request.inner
  }

  function StageOf(kind: Kind): Stage {
    match kind
    case Initialize => New
    case AccountRead => Initialized
    case ThreadStart => Subscription
    case ThreadResume => Subscription
    case _ => Ready
  }

  predicate Handshakes(s: Chan, t: Chan, e: Option<Entry>) {
    && Asks(s, t, e) && s.stage == StageOf(t.pending.value.kind) && s.stage != Ready
    && t == s.(lastOuter := t.lastOuter, seen := t.seen, workspace := t.workspace, pending := t.pending)
  }

  predicate Commits(s: Chan, t: Chan, e: Option<Entry>) {
    && Asks(s, t, e) && t.pending.value.kind == TurnStart && s.stage == Ready && (!s.committed || s.terminal)
    && t.pending.value.inner == Int(t.lastTurnInner) && s.lastTurnInner < t.lastTurnInner
    && MessageOf(e.value.frame).Str? && MessageOf(e.value.frame).s !in s.messages && |s.messages| < 256
    && t == s.(lastOuter := t.lastOuter, seen := t.seen, pending := t.pending, lastTurnInner := t.lastTurnInner,
               messages := s.messages + {MessageOf(e.value.frame).s},
               retired := if s.turn.Some? then s.retired + {s.turn.value} else s.retired,
               turn := None, terminal := false, cancelled := false, committed := true)
  }

  predicate Steers(s: Chan, t: Chan, e: Option<Entry>) {
    && Asks(s, t, e) && t.pending.value.kind == TurnSteer && RunningTurn(s)
    && t.pending.value.inner.Str? && t.pending.value.inner.s !in s.steerIds && |s.steerIds| < 128
    && t == s.(lastOuter := t.lastOuter, seen := t.seen, pending := t.pending,
               steerIds := s.steerIds + {t.pending.value.inner.s})
  }

  predicate Interrupts(s: Chan, t: Chan, e: Option<Entry>) {
    && Asks(s, t, e) && t.pending.value.kind == TurnInterrupt && RunningTurn(s)
    && t == s.(lastOuter := t.lastOuter, seen := t.seen, pending := t.pending, cancelled := true)
  }

  predicate Answers(s: Chan, t: Chan, e: Option<Entry>) {
    && s.pending.Some? && t.pending.None?
    && e.Some? && e.value.Replied? && e.value.outer == s.pending.value.outer && e.value.closes == s.pending
  }

  predicate Advances(s: Chan, t: Chan, e: Option<Entry>) {
    && Answers(s, t, e) && e.value.turn.None?
    && match s.pending.value.kind
       case Initialize => t == s.(pending := None, stage := InitializeReplied)
       case AccountRead => t == s.(pending := None, stage := Subscription)
       case ThreadStart => t.native.Some? && t == s.(pending := None, stage := Ready, native := t.native)
       case ThreadResume => t.native.Some? && t == s.(pending := None, stage := Ready, native := t.native)
       case _ => false
  }

  predicate Starts(s: Chan, t: Chan, e: Option<Entry>) {
    && Answers(s, t, e) && s.pending.value.kind == TurnStart && e.value.turn.Some? && e.value.turn == t.turn
    && (s.turn.Some? ==> s.turn == t.turn)
    && t == s.(pending := None, turn := t.turn)
  }

  predicate Acknowledges(s: Chan, t: Chan, e: Option<Entry>) {
    && Answers(s, t, e) && e.value.turn.None? && t == s.(pending := None)
    && match s.pending.value.kind
       case TurnSteer => !s.terminal && !s.cancelled
       case TurnInterrupt => true
       case _ => false
  }

  /** A notification is taken for the running turn, which it may name first. */
  predicate Concerns(s: Chan, t: Chan) {
    && s.committed && !s.terminal
    && t.turn.Some? && t.turn.value !in s.retired && (s.turn.Some? ==> s.turn == t.turn)
  }

  predicate Notes(s: Chan, t: Chan, e: Option<Entry>) {
    && Concerns(s, t) && e.Some? && e.value.Noted? && t.turn == Some(e.value.turnId)
    && t == s.(turn := t.turn, terminal := e.value.name == "turn/completed")
  }

  /** A turn/completed that says the turn is still running names its turn and is then refused. */
  predicate Names(s: Chan, t: Chan, e: Option<Entry>) {
    Concerns(s, t) && e.None? && t == s.(turn := t.turn)
  }

  predicate ClientMove(s: Chan, t: Chan, e: Option<Entry>) {
    || Quiet(s, t, e) || Opens(s, t, e) || Initializes(s, t, e) || Handshakes(s, t, e)
    || Commits(s, t, e) || Steers(s, t, e) || Interrupts(s, t, e)
  }

  predicate ProviderMove(s: Chan, t: Chan, e: Option<Entry>) {
    || Quiet(s, t, e) || Advances(s, t, e) || Starts(s, t, e) || Acknowledges(s, t, e)
    || Notes(s, t, e) || Names(s, t, e)
  }

  predicate Move(s: Chan, t: Chan, e: Option<Entry>) {
    ClientMove(s, t, e) || ProviderMove(s, t, e)
  }

  // ---------- every frame is one move ----------

  /** `s1` is `s` once the request has burned its number. */
  predicate Burns(s: Chan, s1: Chan, outer: int) {
    s1 == s.(lastOuter := outer, seen := s1.seen) && Spends(s, s1)
  }

  lemma ThreadMoves(c: Config, s: Chan, s1: Chan, outer: int, frame: Json, resume: bool)
    requires Burns(s, s1, outer) && s.handle.Some? && s.pending.None?
    ensures var (t, out) := ThreadRequest(c, s1, outer, frame, resume); ClientMove(s, t, ClientEntry(t, out))
  {
    var (t, out) := ThreadRequest(c, s1, outer, frame, resume);
    if out.Refused? {
      assert Quiet(s, t, ClientEntry(t, out));
    } else {
      assert Handshakes(s, t, ClientEntry(t, out));
    }
  }

  lemma MetadataMoves(c: Config, s: Chan, s1: Chan, outer: int, frame: Json)
    requires Burns(s, s1, outer) && s.handle.Some? && s.pending.None?
    ensures var (t, out) := MetadataStep(c, s1, outer, frame); ClientMove(s, t, ClientEntry(t, out))
  {
    var (t, out) := MetadataStep(c, s1, outer, frame);
    if frame.Get("method") == Str("thread/start") {
      ThreadMoves(c, s, s1, outer, frame, false);
    } else if frame.Get("method") == Str("thread/resume") {
      ThreadMoves(c, s, s1, outer, frame, true);
    } else if out.Refused? {
      assert Quiet(s, s1, None);
    } else if out.reply.Some? {
      assert Initializes(s, t, ClientEntry(t, out));
    } else {
      assert Handshakes(s, t, ClientEntry(t, out));
    }
  }

  lemma CommitMoves(s: Chan, s1: Chan, outer: int, frame: Json)
    requires Burns(s, s1, outer) && s.handle.Some? && s.pending.None?
    ensures var (t, out) := CommitStep(s1, outer, frame); ClientMove(s, t, ClientEntry(t, out))
  {
    var (t, out) := CommitStep(s1, outer, frame);
    if out.Refused? {
      assert Quiet(s, t, ClientEntry(t, out));
    } else {
      assert Commits(s, t, ClientEntry(t, out));
    }
  }

  lemma SteerMoves(s: Chan, s1: Chan, outer: int, frame: Json)
    requires Burns(s, s1, outer) && s.handle.Some? && s.pending.None?
    ensures var (t, out) := SteerStep(s1, outer, frame); ClientMove(s, t, ClientEntry(t, out))
  {
    var (t, out) := SteerStep(s1, outer, frame);
    if out.Refused? {
      assert Quiet(s, t, ClientEntry(t, out));
    } else {
      assert Steers(s, t, ClientEntry(t, out));
    }
  }

  lemma CancelMoves(s: Chan, s1: Chan, outer: int, frame: Json)
    requires Burns(s, s1, outer) && s.handle.Some? && s.pending.None?
    ensures var (t, out) := CancelStep(s1, outer, frame); ClientMove(s, t, ClientEntry(t, out))
  {
    var (t, out) := CancelStep(s1, outer, frame);
    if out.Refused? {
      assert Quiet(s, t, ClientEntry(t, out));
    } else {
      assert Interrupts(s, t, ClientEntry(t, out));
    }
  }

  lemma OwnedMoves(c: Config, s: Chan, s1: Chan, outer: int, name: string, frame: Json)
    requires Burns(s, s1, outer) && s.handle.Some? && s.pending.None?
    ensures var (t, out) := OwnedStep(c, s1, outer, name, frame); ClientMove(s, t, ClientEntry(t, out))
  {
    if name == "BrokerMetadata" {
      MetadataMoves(c, s, s1, outer, frame);
    } else if name == "SteerExecution" {
      SteerMoves(s, s1, outer, frame);
    } else if name == "CancelExecution" {
      CancelMoves(s, s1, outer, frame);
    } else if name == "CommitExecution" {
      CommitMoves(s, s1, outer, frame);
    } else {
      assert Quiet(s, s1, None);
    }
  }

  lemma ClientMoves(c: Config, s: Chan, request: Json, drawn: string)
    ensures var (t, out) := ClientStep(c, s, request, drawn); ClientMove(s, t, ClientEntry(t, out))
  {
    var (t, out) := ClientStep(c, s, request, drawn);
    if !Envelope(s, request) {
      assert Quiet(s, t, None);
    } else {
      var s1, outer := Burned(s, request), request.Get("id").n;
      assert Burns(s, s1, outer);
      if s.handle.None? {
        assert if OpenRequest(request) then Opens(s, t, ClientEntry(t, out)) else Quiet(s, t, None);
      } else if OwnedRequest(s1, request) {
        OwnedMoves(c, s, s1, outer, request.Get("method").s, request.Get("params").Get("frame"));
      } else {
        assert Quiet(s, t, None);
      }
    }
  }

  lemma NotificationMoves(c: Config, s: Chan, frame: Json)
    ensures var (t, out) := NotificationStep(c, s, frame); ProviderMove(s, t, ProviderEntry(s, out))
  {
    var (t, out) := NotificationStep(c, s, frame);
    var triage := TriageNote(c, s, frame);
    if triage.Turnwise? {
      var note := ReadNote(triage.name, triage.params);
      if note.Some? {
        ApplyMoves(s, triage.name, note.value);
      } else {
        assert Quiet(s, t, None);
      }
    } else {
      assert Quiet(s, t, None);
    }
  }

  lemma ApplyMoves(s: Chan, name: string, note: Note)
    requires s.committed && !s.terminal
    ensures var (t, out) := ApplyNote(s, name, note); ProviderMove(s, t, ProviderEntry(s, out))
  {
    var (t, out) := ApplyNote(s, name, note);
    if out.Notify? {
      assert Notes(s, t, ProviderEntry(s, out));
    } else if t.turn != s.turn {
      assert Names(s, t, None);
    } else {
      assert Quiet(s, t, None);
    }
  }

  lemma StartMoves(c: Config, s: Chan, frame: Json)
    requires ResponseStep(c, s, frame).1.Answer? && s.pending.value.kind == TurnStart
    ensures var (t, out) := ResponseStep(c, s, frame); Starts(s, t, ProviderEntry(s, out))
  {
  }

  lemma AcknowledgeMoves(c: Config, s: Chan, frame: Json)
    requires ResponseStep(c, s, frame).1.Answer? && s.pending.value.kind in {TurnSteer, TurnInterrupt}
    ensures var (t, out) := ResponseStep(c, s, frame); Acknowledges(s, t, ProviderEntry(s, out))
  {
  }

  lemma AdvanceMoves(c: Config, s: Chan, frame: Json)
    requires ResponseStep(c, s, frame).1.Answer? && s.pending.value.kind !in {TurnStart, TurnSteer, TurnInterrupt}
    ensures var (t, out) := ResponseStep(c, s, frame); Advances(s, t, ProviderEntry(s, out))
  {
    var kind, result := s.pending.value.kind, frame.Get("result");
    AbsorbAdvances(s, kind, result);
    assert ResponseStep(c, s, frame).0 == Absorb(s, kind, result).(pending := None);
  }

  lemma AbsorbAdvances(s: Chan, kind: Kind, result: Json)
    requires kind !in {TurnStart, TurnSteer, TurnInterrupt}
    ensures Absorb(s, kind, result).(stage := s.stage, native := s.native) == s
  {
  }

  lemma ResponseMoves(c: Config, s: Chan, frame: Json)
    ensures var (t, out) := ResponseStep(c, s, frame); ProviderMove(s, t, ProviderEntry(s, out))
  {
    var (t, out) := ResponseStep(c, s, frame);
    if out.Fail? {
      assert Quiet(s, t, None);
    } else if s.pending.value.kind == TurnStart {
      StartMoves(c, s, frame);
    } else if s.pending.value.kind in {TurnSteer, TurnInterrupt} {
      AcknowledgeMoves(c, s, frame);
    } else {
      AdvanceMoves(c, s, frame);
    }
  }

  lemma ProviderMoves(c: Config, s: Chan, frame: Json)
    ensures var (t, out) := ProviderStep(c, s, frame); ProviderMove(s, t, ProviderEntry(s, out))
  {
    var (t, out) := ProviderStep(c, s, frame);
    if out.Fail? && t == s {
      assert Quiet(s, t, None);
    } else if frame.Has("id") {
      ResponseMoves(c, s, frame);
    } else {
      NotificationMoves(c, s, frame);
    }
  }

  /** Every input takes the channel through one of the moves. */
  lemma EveryStepIsAMove(c: Config, s: Chan, input: Input)
    ensures var (t, e) := Step(c, s, input); Move(s, t, e)
  {
    match input
    case FromClient(request, drawn) => ClientMoves(c, s, request, drawn);
    case FromProvider(frame) => ProviderMoves(c, s, frame);
  }

  /** The turn a notification's parameters are about. */
  function TurnOf(name: string, params: Json): Json {
    if name in {"turn/started", "turn/completed"} then params.Get("turn").Get("id") else params.Get("turnId")
  }

  /**
   * A notification that is passed on keeps its method, is about the session's own thread, and names
   * the turn it arrived with; nothing under another thread, an unknown method or a foreign item passes.
   */
  lemma ForwardedIsFaithful(c: Config, s: Chan, frame: Json)
    requires ProviderStep(c, s, frame).1.Notify?
    ensures var out := ProviderStep(c, s, frame).1;
            && frame.Get("method") == Str(out.name) == out.frame.Get("method") && out.name in ITEM_EVENTS + TURN_EVENTS
            && frame.Get("params").Get("threadId") == Nullable(s.native) == out.frame.Get("params").Get("threadId")
            && TurnOf(out.name, frame.Get("params")) == Str(out.turnId) == TurnOf(out.name, out.frame.Get("params"))
  {
    var name, params := frame.Get("method").s, frame.Get("params");
    var note := ReadNote(name, params);
    NotesAreFaithful(name, params);
  }

  lemma NotesAreFaithful(name: string, params: Json)
    requires ReadNote(name, params).Some? && name in ITEM_EVENTS + TURN_EVENTS
    ensures var note := ReadNote(name, params).value;
            && TurnOf(name, params) == Str(note.turnId) == TurnOf(name, note.clean)
            && note.clean.Get("threadId") == params.Get("threadId")
  {
    if name == "turn/started" || name == "turn/completed" {
      TurnNoteIsFaithful(name, params);
    }
  }

  lemma TurnNoteIsFaithful(name: string, params: Json)
    requires TurnNote(name, params).Some?
    ensures var note := TurnNote(name, params).value;
            && params.Get("turn").Get("id") == Str(note.turnId) == note.clean.Get("turn").Get("id")
            && note.clean.Get("threadId") == params.Get("threadId")
  {
  }
}
