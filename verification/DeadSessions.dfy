/**
 * Two ways in which an accepted provider frame leaves the owned session unable to go on, each with
 * the exact condition: a turn/start reply that names a retired turn, and a turn/steer that is still
 * unanswered when its turn completes.
 */
module DeadSessions {
  import opened Common
  import opened JsonValues
  import opened Protocol
  import opened ProtocolMoves
  import opened ProtocolRuns
  import opened TurnGrammar

  // ---------- a reply that names a retired turn ----------

  predicate Retired(s: Chan) {
    Inv(s) && s.turn.Some? && s.turn.value in s.retired
  }

  lemma RetiredStays(s: Chan, t: Chan, e: Option<Entry>)
    requires Retired(s) && Move(s, t, e)
    ensures Retired(t) && t.turn == s.turn && (e.Some? ==> !e.value.Noted? && !IsCommit(e.value))
  {
    MoveIsSound(s, t, e);
  }

  /** Once the channel's turn is a retired one, no notification and no commit is ever accepted again. */
  lemma {:induction false} RetiredIsDead(c: Config, s: Chan, inputs: seq<Input>)
    requires Retired(s)
    ensures var (t, log) := Run(c, s, inputs); Retired(t) && forall e <- log :: !e.Noted? && !IsCommit(e)
  {
    if inputs == [] {
    } else {
      RetiredIsDead(c, s, inputs[..|inputs| - 1]);
      var before, after, e := LastMove(c, s, inputs);
      RetiredStays(before, after, e);
    }
  }

  function StartReply(inner: Json, turn: string): Json {
    Obj(map["id" := inner,
            "result" := Obj(map["turn" := Obj(map["id" := Str(turn), "status" := Str("inProgress")])])])
  }

  function CompletedNote(native: Option<string>, turn: string): Json {
    Obj(map["method" := Str("turn/completed"),
            "params" := Obj(map["threadId" := Nullable(native),
                                "turn" := Obj(map["id" := Str(turn), "status" := Str("completed")])])])
  }

  /** The channel waits for the answer to a turn/start, and nothing has named the turn yet. */
  predicate AwaitsStart(s: Chan) {
    Inv(s) && s.pending.Some? && s.pending.value.kind == TurnStart && s.turn.None?
  }

  lemma StartIsAccepted(c: Config, s: Chan, turn: string)
    requires AwaitsStart(s) && Identifier(Str(turn))
    ensures var (t, out) := ProviderStep(c, s, StartReply(s.pending.value.inner, turn));
            out.Answer? && t == s.(pending := None, turn := Some(turn))
  {
    var frame := StartReply(s.pending.value.inner, turn);
    assert Exact(frame, {"id", "result"});
    assert !frame.Has("method");
    var result := frame.Get("result");
    assert result.Get("turn").Get("id") == Str(turn) && result.Get("turn").Get("status") == Str("inProgress");
  }

  lemma CompletionIsAccepted(c: Config, s: Chan, turn: string)
    requires Inv(s) && s.committed && !s.terminal && s.turn == Some(turn) && turn !in s.retired && Identifier(Str(turn))
    ensures var (t, out) := ProviderStep(c, s, CompletedNote(s.native, turn));
            out.Notify? && out.name == "turn/completed" && out.turnId == turn && t == s.(terminal := true)
  {
    var frame := CompletedNote(s.native, turn);
    assert !frame.Has("id") && frame.Has("params");
    var params := frame.Get("params");
    assert TriageNote(c, s, frame) == Turnwise("turn/completed", params);
    assert !params.Get("turn").Has("items");
    assert ReadNote("turn/completed", params).Some?;
  }

  /** After this answer the turn can still be heard of, or be followed by another. */
  ghost predicate GoesOn(c: Config, s: Chan) {
    exists inputs: seq<Input> :: exists e <- Run(c, s, inputs).1 :: e.Noted? || IsCommit(e)
  }

  lemma RetiredEnds(c: Config, s: Chan)
    requires Retired(s)
    ensures !GoesOn(c, s)
  {
    forall inputs: seq<Input>, e | e in Run(c, s, inputs).1 ensures !e.Noted? && !IsCommit(e) {
      RetiredIsDead(c, s, inputs);
    }
  }

  lemma OtherGoesOn(c: Config, s: Chan, turn: string)
    requires Inv(s) && s.committed && !s.terminal && s.turn == Some(turn) && turn !in s.retired && Identifier(Str(turn))
    ensures GoesOn(c, s)
  {
    CompletionIsAccepted(c, s, turn);
    var note := FromProvider(CompletedNote(s.native, turn));
    OneStep(c, s, note);
    assert Noted("turn/completed", turn) in Run(c, s, [note]).1;
  }

  /**
   * The broker accepts an early or late turn/start answer under any identifier, retired or not; the
   * session can go on exactly when it is not a retired one.
   */
  lemma StartMayNameARetiredTurn(c: Config, s: Chan, turn: string)
    requires AwaitsStart(s) && Identifier(Str(turn))
    ensures var (t, out) := ProviderStep(c, s, StartReply(s.pending.value.inner, turn));
            out.Answer? && (GoesOn(c, t) <==> turn !in s.retired)
  {
    StartIsAccepted(c, s, turn);
    var t := s.(pending := None, turn := Some(turn));
    if turn in s.retired {
      RetiredEnds(c, t);
    } else {
      OtherGoesOn(c, t, turn);
    }
  }

  lemma OneStep(c: Config, s: Chan, input: Input)
    ensures Run(c, s, [input]) == (Step(c, s, input).0, Listed(Step(c, s, input).1))
  {
    assert [input][..0] == [];
    assert [] + Listed(Step(c, s, input).1) == Listed(Step(c, s, input).1);
  }

  // ---------- a steer that is answered late ----------

  predicate Wedged(s: Chan) {
    Inv(s) && s.pending.Some? && s.pending.value.kind == TurnSteer && s.terminal
  }

  lemma WedgedStays(s: Chan, t: Chan, e: Option<Entry>)
    requires Wedged(s) && Move(s, t, e)
    ensures Wedged(t) && e.None?
  {
    MoveIsSound(s, t, e);
  }

  lemma {:induction false} WedgedIsDead(c: Config, s: Chan, inputs: seq<Input>)
    requires Wedged(s)
    ensures var (t, log) := Run(c, s, inputs); Wedged(t) && log == []
  {
    if inputs == [] {
    } else {
      WedgedIsDead(c, s, inputs[..|inputs| - 1]);
      var before, after, e := LastMove(c, s, inputs);
      WedgedStays(before, after, e);
    }
  }

  /** Nothing keeps the completion of a turn from overtaking the answer to a steer of it. */
  lemma CompletionOvertakesSteer(c: Config, s: Chan)
    requires Inv(s) && s.pending.Some? && s.pending.value.kind == TurnSteer && !s.terminal
    requires s.turn.value !in s.retired && Identifier(Str(s.turn.value))
    ensures Wedged(ProviderStep(c, s, CompletedNote(s.native, s.turn.value)).0)
  {
    CompletionIsAccepted(c, s, s.turn.value);
    var input := FromProvider(CompletedNote(s.native, s.turn.value));
    EveryStepIsAMove(c, s, input);
    var (t, e) := Step(c, s, input);
    MoveIsSound(s, t, e);
    assert Notes(s, t, e);
  }

  function SteerReply(inner: Json, turn: Option<string>): Json {
    Obj(map["id" := inner, "result" := Obj(map["turnId" := Nullable(turn)])])
  }

  lemma SteerIsAnswered(c: Config, s: Chan)
    requires Inv(s) && s.pending.Some? && s.pending.value.kind == TurnSteer && !s.terminal
    ensures ProviderStep(c, s, SteerReply(s.pending.value.inner, s.turn)).1.Answer?
  {
    var frame := SteerReply(s.pending.value.inner, s.turn);
    assert Exact(frame, {"id", "result"}) && !frame.Has("method");
    assert Exact(frame.Get("result"), {"turnId"});
  }

  /**
   * An unanswered steer can still be answered, and anything at all still leave the broker, exactly
   * while its turn has not completed: the completion may not overtake the answer.
   */
  lemma SteerMustBeAnsweredBeforeCompletion(c: Config, s: Chan)
    requires Inv(s) && s.pending.Some? && s.pending.value.kind == TurnSteer
    ensures (exists inputs: seq<Input> :: Run(c, s, inputs).1 != []) <==> !s.terminal
  {
    if s.terminal {
      forall inputs: seq<Input> ensures Run(c, s, inputs).1 == [] {
        WedgedIsDead(c, s, inputs);
      }
    } else {
      SteerIsAnswered(c, s);
      var reply := FromProvider(SteerReply(s.pending.value.inner, s.turn));
      OneStep(c, s, reply);
      assert Run(c, s, [reply]).1 != [];
    }
  }
}
