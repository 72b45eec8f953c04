/** Channel of v2/provider-broker/protocol.py with its fields, updated frame by frame. */
module Channels {
  import opened Common
  import opened JsonValues
  import opened Protocol
  import opened ProtocolMoves

  class Channel {
    const config: Config
    var workspace: string
    var handle: Option<string>
    var role: string
    var stage: Stage
    var pending: Option<Pending>
    var seen: set<int>
    var lastOuter: int
    var retired: set<string>
    var lastTurnInner: int
    var native: Option<string>
    var committed: bool
    var turn: Option<string>
    var terminal: bool
    var messages: set<string>
    var cancelled: bool
    var steerIds: set<string>

    function State(): Chan
      reads this
    {
      Chan(workspace, handle, role, stage, pending, seen, lastOuter, retired, lastTurnInner, native, committed, turn,
           terminal, messages, cancelled, steerIds)
    }

    constructor (workspace: string, config: Config)
      requires ValidConfig(config)
      ensures State() == Fresh(workspace) && this.config == config
    {
      this.config, this.workspace := config, workspace;
      handle, role, stage, pending := None, "", New, None;
      seen, lastOuter, retired, lastTurnInner := {}, 0, {}, 0;
      native, committed, turn, terminal := None, false, None, false;
      messages, cancelled, steerIds := {}, false, {};
    }

    /** A channel is made exactly from a valid configuration. */
    static method Create(workspace: string, config: Config) returns (made: Option<Channel>)
      ensures made.Some? <==> ValidConfig(config)
      ensures made.Some? ==> fresh(made.value) && made.value.config == config && made.value.State() == Fresh(workspace)
    {
      if !ValidConfig(config) {
        return None;
      }
      var channel := new Channel(workspace, config);
      made := Some(channel);
    }

    method Client(request: Json, drawn: string) returns (out: ClientOut)
      modifies this
      ensures (State(), out) == ClientStep(config, old(State()), request, drawn)
    {
      if !Envelope(State(), request) {
        return Refused;
      }
      var outer := request.Get("id").n;
      lastOuter := outer;
      seen := seen + {outer};
      if handle.None? {
        out := Open(outer, request, drawn);
      } else if !OwnedRequest(State(), request) {
        out := Refused;
      } else {
        out := Owned(outer, request.Get("method").s, request.Get("params").Get("frame"));
      }
    }

    method Open(outer: int, request: Json, drawn: string) returns (out: ClientOut)
      modifies this
      ensures (State(), out) == OpenStep(old(State()), outer, request, drawn)
    {
      if !OpenRequest(request) {
        return Refused;
      }
      var identity := request.Get("params").Get("identity");
      role := identity.Get("role").s;
      handle := Some(drawn);
      out := Accepted(None, Some(OpenReply(outer, identity, drawn)));
    }

    method Owned(outer: int, name: string, frame: Json) returns (out: ClientOut)
      modifies this
      ensures (State(), out) == OwnedStep(config, old(State()), outer, name, frame)
    {
      if name == "BrokerMetadata" {
        out := Metadata(outer, frame);
      } else if name == "SteerExecution" {
        out := Steer(outer, frame);
      } else if name == "CancelExecution" {
        out := Cancel(outer, frame);
      } else if name == "CommitExecution" {
        out := Commit(outer, frame);
      } else {
        out := Refused;
      }
    }

    method Metadata(outer: int, frame: Json) returns (out: ClientOut)
      modifies this
      ensures (State(), out) == MetadataStep(config, old(State()), outer, frame)
    {
      if frame.Get("method") == Str("initialized") {
        if !Exact(frame, {"method"}) || stage != InitializeReplied {
          return Refused;
        }
        stage := Initialized;
        return Accepted(Some(frame), Some(HandleReply(outer, handle, Null)));
      }
      if !NumberedFrame(frame) {
        return Refused;
      }
      if frame.Get("method") == Str("thread/start") {
        out := Thread(outer, frame, false);
      } else if frame.Get("method") == Str("thread/resume") {
        out := Thread(outer, frame, true);
      } else {
        var kind := Handshake(State(), frame);
        if kind.None? {
          return Refused;
        }
        out := Send(outer, frame, kind.value);
      }
    }

    method Thread(outer: int, frame: Json, resume: bool) returns (out: ClientOut)
      modifies this
      ensures (State(), out) == ThreadRequest(config, old(State()), outer, frame, resume)
    {
      if stage != Subscription || resume != config.expectedNative.Some? {
        return Refused;
      }
      var params := ThreadParams(config, resume, frame.Get("params"));
      if params.None? {
        return Refused;
      }
      var cwd := params.value.Get("cwd");
      if cwd != Str(workspace) && cwd.Str? && cwd.s in config.workspaces {
        workspace := cwd.s;
      }
      if !StartParams(config, workspace, params.value) {
        return Refused;
      }
      out := Send(outer, frame, if resume then ThreadResume else ThreadStart);
    }

    method Steer(outer: int, frame: Json) returns (out: ClientOut)
      modifies this
      ensures (State(), out) == SteerStep(old(State()), outer, frame)
    {
      if role !in {"fast", "deep"} || !RunningTurn(State()) || !SteerFrame(State(), frame) {
        return Refused;
      }
      steerIds := steerIds + {frame.Get("id").s};
      out := Send(outer, frame, TurnSteer);
    }

    method Cancel(outer: int, frame: Json) returns (out: ClientOut)
      modifies this
      ensures (State(), out) == CancelStep(old(State()), outer, frame)
    {
      if !RunningTurn(State()) || !CancelFrame(State(), frame) {
        return Refused;
      }
      cancelled := true;
      out := Send(outer, frame, TurnInterrupt);
    }

    method Commit(outer: int, frame: Json) returns (out: ClientOut)
      modifies this
      ensures (State(), out) == CommitStep(old(State()), outer, frame)
    {
      if stage != Ready || (committed && !terminal) || !TurnFrame(native, frame) || frame.Get("id").n <= lastTurnInner {
        return Refused;
      }
      lastTurnInner := frame.Get("id").n;
      out := Start(outer, frame, MessageOf(frame).s);
    }

    method Start(outer: int, frame: Json, message: string) returns (out: ClientOut)
      modifies this
      ensures (State(), out) == StartTurn(old(State()), outer, frame, message)
    {
      if message in messages || |messages| >= 256 {
        return Refused;
      }
      messages := messages + {message};
      RetireTurn();
      committed := true;
      out := Send(outer, frame, TurnStart);
    }

    method RetireTurn()
      modifies this`retired, this`turn, this`terminal, this`cancelled
      ensures retired == if old(turn).Some? then old(retired) + {old(turn).value} else old(retired)
      ensures turn == None && !terminal && !cancelled
    {
      if turn.Some? {
        retired := retired + {turn.value};
      }
      turn, terminal, cancelled := None, false, false;
    }

    method Send(outer: int, frame: Json, kind: Kind) returns (out: ClientOut)
      modifies this`pending
      ensures (State(), out) == Sending(old(State()), outer, frame, kind)
    {
      pending := Some(Pending(outer, frame.Get("id"), kind));
      out := Accepted(Some(frame), None);
    }

    method Provider(frame: Json) returns (out: ProviderOut)
      modifies this
      ensures (State(), out) == ProviderStep(config, old(State()), frame)
    {
      if !frame.Obj? {
        return Fail(PROVIDER_OUTER);
      }
      if frame.Get("method") == Str("item/tool/call") {
        return Fail(UNSUPPORTED_TOOL);
      }
      if !frame.Has("id") {
        out := Notification(frame);
      } else {
        out := Response(frame);
      }
    }

    method Notification(frame: Json) returns (out: ProviderOut)
      modifies this
      ensures (State(), out) == NotificationStep(config, old(State()), frame)
    {
      var triage := TriageNote(config, State(), frame);
      if triage.Drop? {
        return Ignored;
      }
      if triage.Bad? {
        return Fail(triage.failure);
      }
      var name := triage.name;
      var read := ReadNote(name, triage.params);
      if read.None? {
        return Fail(TURN_SCHEMA);
      }
      var note := read.value;
      if note.turnId in retired {
        return Fail(RETIRED_TURN);
      }
      if turn.Some? {
        if note.turnId != turn.value {
          return Fail(TURN_MISMATCH);
        }
      } else {
        turn := Some(note.turnId);
      }
      if name == "turn/completed" {
        if note.status == "inProgress" {
          return Fail(PROTOCOL_REFUSED);
        }
        terminal := true;
      }
      out := Notify(name, note.turnId, Obj(map["method" := Str(name), "params" := note.clean]));
    }

    method Absorbed(kind: Kind, result: Json)
      requires GoodResult(config, State(), kind, result)
      modifies this
      ensures State() == Absorb(old(State()), kind, result)
    {
      match kind {
        case Initialize => stage := InitializeReplied;
        case AccountRead => stage := Subscription;
        case ThreadStart => native, stage := Some(result.Get("thread").Get("id").s), Ready;
        case ThreadResume => native, stage := Some(result.Get("thread").Get("id").s), Ready;
        case TurnStart => turn := Some(result.Get("turn").Get("id").s);
        case _ =>
      }
    }

    method Response(frame: Json) returns (out: ProviderOut)
      modifies this
      ensures (State(), out) == ResponseStep(config, old(State()), frame)
    {
      if pending.None? {
        return Fail(UNEXPECTED_RESPONSE);
      }
      if !Exact(frame, {"id", "result"}) {
        return Fail(PROTOCOL_REFUSED);
      }
      var Pending(outer, inner, kind) := pending.value;
      if frame.Get("id") != inner {
        return Fail(RESPONSE_CORRELATION);
      }
      var result := frame.Get("result");
      if !result.Obj? || !GoodResult(config, State(), kind, result) {
        return Fail(PROTOCOL_REFUSED);
      }
      var clean := Sanitized(config, State(), inner, kind, result);
      Absorbed(kind, result);
      pending := None;
      out := Answer(HandleReply(outer, handle, clean));
    }
  }
}
