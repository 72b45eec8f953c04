/**
 * The grammar of turns: every run's output splits into one block per accepted commit, each block
 * about one turn, closed by that turn's completion before the next commit is accepted.
 */
module TurnGrammar {
  import opened Common
  import opened JsonValues
  import opened Protocol
  import opened ProtocolMoves
  import opened ProtocolRuns

  /** An accepted commit, and what followed it up to the next one. */
  datatype Block = Block(commit: Entry, tail: seq<Entry>)

  datatype History = History(preamble: seq<Entry>, blocks: seq<Block>)

  predicate IsCommit(e: Entry) {
    e.Sent? && e.request.kind == TurnStart
  }

  predicate IsInterrupt(e: Entry) {
    e.Sent? && e.request.kind == TurnInterrupt
  }

  /** The turn an entry names to the client. */
  function Named(e: Entry): Option<string> {
    match e
    case Sent(_, _) => None
    case Replied(_, _, turn) => turn
    case Noted(_, turnId) => Some(turnId)
  }

  predicate Completes(e: Entry) {
    e.Noted? && e.name == "turn/completed"
  }

  function Extend(h: History, e: Entry): History {
    if IsCommit(e) then h.(blocks := h.blocks + [Block(e, [])])
    else if h.blocks == [] then h.(preamble := h.preamble + [e])
    else
      var last := h.blocks[|h.blocks| - 1];
      h.(blocks := h.blocks[..|h.blocks| - 1] + [last.(tail := last.tail + [e])])
  }

  function Parse(log: seq<Entry>): History {
    if log == [] then History([], []) else Extend(Parse(log[..|log| - 1]), log[|log| - 1])
  }

  function FlattenBlocks(blocks: seq<Block>): seq<Entry> {
    if blocks == [] then []
    else
      var last := blocks[|blocks| - 1];
      FlattenBlocks(blocks[..|blocks| - 1]) + [last.commit] + last.tail
  }

  function Flatten(h: History): seq<Entry> {
    h.preamble + FlattenBlocks(h.blocks)
  }

  /** Splitting a log into blocks loses and reorders nothing. */
  lemma {:induction false} FlattenParse(log: seq<Entry>)
    ensures Flatten(Parse(log)) == log
  {
    if log == [] {
    } else {
      var h, e := Parse(log[..|log| - 1]), log[|log| - 1];
      FlattenParse(log[..|log| - 1]);
      FlattenExtend(h, e);
      assert log == log[..|log| - 1] + [e];
    }
  }

  lemma FlattenExtend(h: History, e: Entry)
    ensures Flatten(Extend(h, e)) == Flatten(h) + [e]
  {
    var n, next := |h.blocks|, Extend(h, e).blocks;
    if IsCommit(e) {
      assert next[..n] == h.blocks;
    } else if n > 0 {
      assert next[..n - 1] == h.blocks[..n - 1];
    }
  }

  // ---------- the grammar ----------

  /** Nothing follows the completion but replies and refused attempts: it is the last notification. */
  predicate CompletesLast(tail: seq<Entry>) {
    forall i, j :: 0 <= i < j < |tail| && Completes(tail[i]) ==> !tail[j].Noted?
  }

  predicate Completed(tail: seq<Entry>) {
    exists i :: 0 <= i < |tail| && Completes(tail[i])
  }

  predicate OneInterrupt(tail: seq<Entry>) {
    forall i, j :: 0 <= i < j < |tail| && IsInterrupt(tail[i]) ==> !IsInterrupt(tail[j])
  }

  /** Every entry that names a turn names this one, and there is no further commit. */
  predicate About(tail: seq<Entry>, turn: Option<string>) {
    forall e <- tail :: !IsCommit(e) && (Named(e).Some? ==> Named(e) == turn)
  }

  predicate WellFormed(b: Block, turn: Option<string>) {
    IsCommit(b.commit) && About(b.tail, turn) && CompletesLast(b.tail) && OneInterrupt(b.tail)
  }

  predicate Preamble(preamble: seq<Entry>) {
    forall e <- preamble :: !IsCommit(e) && Named(e).None?
  }

  /** The closed blocks are about these turns, all different; they are the retired ones. */
  predicate Closed(s: Chan, blocks: seq<Block>, turns: seq<string>) {
    && |turns| == |blocks|
    && (forall i :: 0 <= i < |blocks| ==> WellFormed(blocks[i], Some(turns[i])) && Completed(blocks[i].tail))
    && (forall i, j :: 0 <= i < j < |turns| ==> turns[i] != turns[j])
    && (forall turn <- turns :: turn in s.retired) && (forall turn <- s.retired :: turn in turns)
  }

  /** The open block tells the turn of the channel, and whether it has ended or been interrupted. */
  predicate Open(s: Chan, b: Block) {
    && WellFormed(b, s.turn)
    && (s.terminal <==> Completed(b.tail))
    && ((exists e <- b.tail :: IsInterrupt(e)) ==> s.cancelled)
    && (forall e <- b.tail :: e.Noted? ==> e.turnId !in s.retired)
  }

  predicate Tells(s: Chan, h: History, turns: seq<string>) {
    && Preamble(h.preamble)
    && (h.blocks == [] <==> !s.committed)
    && if h.blocks == [] then Closed(s, [], turns)
       else Closed(s, h.blocks[..|h.blocks| - 1], turns) && Open(s, h.blocks[|h.blocks| - 1])
  }

  function Turns(s: Chan, turns: seq<string>, e: Option<Entry>): seq<string> {
    if e.Some? && IsCommit(e.value) && s.turn.Some? then turns + [s.turn.value] else turns
  }

  function ExtendBy(h: History, e: Option<Entry>): History {
    if e.Some? then Extend(h, e.value) else h
  }

  /** A move that is not a commit adds to the open block. */
  lemma OpenContinues(s: Chan, t: Chan, e: Option<Entry>, b: Block)
    requires Inv(s) && Move(s, t, e) && s.committed && !(e.Some? && IsCommit(e.value)) && Open(s, b)
    ensures Open(t, b.(tail := b.tail + Listed(e))) && t.retired == s.retired
  {
    var tail := b.tail + Listed(e);
    if ClientMove(s, t, e) {
      OpenAsks(s, t, e, b);
    } else if Notes(s, t, e) {
      OpenNotes(s, t, e, b);
    } else {
      assert !t.terminal || s.terminal;
      OpenAnswers(s, t, e, b);
    }
  }

  lemma OpenAsks(s: Chan, t: Chan, e: Option<Entry>, b: Block)
    requires Inv(s) && ClientMove(s, t, e) && s.committed && !(e.Some? && IsCommit(e.value)) && Open(s, b)
    ensures Open(t, b.(tail := b.tail + Listed(e)))
  {
    AskIsQuiet(s, t, e);
    QuietContinues(s, t, e, b);
  }

  lemma OpenNotes(s: Chan, t: Chan, e: Option<Entry>, b: Block)
    requires Inv(s) && Notes(s, t, e) && s.committed && Open(s, b)
    ensures Open(t, b.(tail := b.tail + Listed(e)))
  {
    KeepsCompletion(b.tail, e);
  }

  lemma OpenAnswers(s: Chan, t: Chan, e: Option<Entry>, b: Block)
    requires Inv(s) && ProviderMove(s, t, e) && s.committed && Open(s, b)
    requires !Notes(s, t, e)
    ensures Open(t, b.(tail := b.tail + Listed(e)))
  {
    AnswerIsQuiet(s, t, e);
    QuietContinues(s, t, e, b);
  }

  /** The move ends and retires nothing, what it says is about the turn, and it interrupts at most once. */
  predicate Quiet(s: Chan, t: Chan, e: Option<Entry>) {
    && t.terminal == s.terminal && t.retired == s.retired && (s.turn.Some? ==> t.turn == s.turn)
       && (s.cancelled ==> t.cancelled)
    && (e.Some? ==> !e.value.Noted? && !IsCommit(e.value) && (Named(e.value).Some? ==> Named(e.value) == t.turn))
    && (e.Some? && IsInterrupt(e.value) ==> !s.cancelled && t.cancelled)
  }

  lemma AskIsQuiet(s: Chan, t: Chan, e: Option<Entry>)
    requires Inv(s) && ClientMove(s, t, e) && s.committed && !(e.Some? && IsCommit(e.value))
    ensures Quiet(s, t, e)
  {
  }

  lemma AnswerIsQuiet(s: Chan, t: Chan, e: Option<Entry>)
    requires Inv(s) && ProviderMove(s, t, e) && !Notes(s, t, e)
    ensures Quiet(s, t, e)
  {
  }

  lemma QuietContinues(s: Chan, t: Chan, e: Option<Entry>, b: Block)
    requires Quiet(s, t, e) && Open(s, b)
    ensures Open(t, b.(tail := b.tail + Listed(e)))
  {
    KeepsCompletion(b.tail, e);
  }

  lemma KeepsCompletion(tail: seq<Entry>, e: Option<Entry>)
    ensures Completed(tail + Listed(e)) <==> Completed(tail) || (e.Some? && Completes(e.value))
  {
    var all := tail + Listed(e);
    if Completed(tail) {
      var i :| 0 <= i < |tail| && Completes(tail[i]);
      assert all[i] == tail[i];
    }
    if e.Some? && Completes(e.value) {
      assert all[|tail|] == e.value;
    }
  }

  /** A commit closes the open block, whose turn has completed and was never retired before. */
  lemma CommitCloses(s: Chan, t: Chan, e: Option<Entry>, h: History, turns: seq<string>)
    requires Inv(s) && Commits(s, t, e) && Tells(s, h, turns)
    ensures Closed(t, h.blocks, Turns(s, turns, e))
  {
    CommitRetires(s, t, e);
    var n := |h.blocks|;
    if n > 0 {
      assert h.blocks == h.blocks[..n - 1] + [h.blocks[n - 1]];
      ClosesBlock(s, t, h.blocks[..n - 1], h.blocks[n - 1], turns, s.turn.value);
    }
  }

  /** A commit retires the turn there is, which has completed. */
  lemma CommitRetires(s: Chan, t: Chan, e: Option<Entry>)
    requires Inv(s) && Commits(s, t, e)
    ensures e.Some? && IsCommit(e.value)
    ensures s.committed ==>
            s.terminal && s.turn.Some? && s.turn.value !in s.retired && t.retired == s.retired + {s.turn.value}
    ensures !s.committed ==> s.turn.None? && t.retired == s.retired
  {
  }

  lemma ClosesBlock(s: Chan, t: Chan, blocks: seq<Block>, b: Block, turns: seq<string>, turn: string)
    requires Closed(s, blocks, turns) && WellFormed(b, Some(turn)) && Completed(b.tail)
    requires turn !in s.retired && t.retired == s.retired + {turn}
    ensures Closed(t, blocks + [b], turns + [turn])
  {
  }

  lemma CommitOpens(s: Chan, t: Chan, e: Option<Entry>, h: History, turns: seq<string>)
    requires Commits(s, t, e) && Closed(t, h.blocks, turns) && Preamble(h.preamble)
    ensures Tells(t, ExtendBy(h, e), turns)
  {
    var n, next := |h.blocks|, ExtendBy(h, e);
    assert next.blocks[..n] == h.blocks && next.blocks[n] == Block(e.value, []);
    assert Open(t, Block(e.value, []));
  }

  lemma MoveTells(s: Chan, t: Chan, e: Option<Entry>, h: History, turns: seq<string>)
    requires Inv(s) && Move(s, t, e) && Tells(s, h, turns)
    ensures Tells(t, ExtendBy(h, e), Turns(s, turns, e))
  {
    if Commits(s, t, e) {
      CommitCloses(s, t, e, h, turns);
      CommitOpens(s, t, e, h, Turns(s, turns, e));
    } else if !s.committed {
      PreambleContinues(s, t, e, h, turns);
    } else {
      BlockContinues(s, t, e, h, turns);
    }
  }

  lemma PreambleContinues(s: Chan, t: Chan, e: Option<Entry>, h: History, turns: seq<string>)
    requires Inv(s) && Move(s, t, e) && Tells(s, h, turns) && !s.committed && !Commits(s, t, e)
    ensures Tells(t, ExtendBy(h, e), Turns(s, turns, e))
  {
    BeforeCommit(s, t, e);
  }

  lemma BeforeCommit(s: Chan, t: Chan, e: Option<Entry>)
    requires Inv(s) && Move(s, t, e) && !s.committed && !Commits(s, t, e)
    ensures !t.committed && t.retired == s.retired && t.turn.None?
    ensures e.Some? ==> !IsCommit(e.value) && Named(e.value).None?
  {
  }

  lemma BlockContinues(s: Chan, t: Chan, e: Option<Entry>, h: History, turns: seq<string>)
    requires Inv(s) && Move(s, t, e) && Tells(s, h, turns) && s.committed && !Commits(s, t, e)
    ensures Tells(t, ExtendBy(h, e), Turns(s, turns, e))
  {
    NotACommit(s, t, e);
    var closed, open := h.blocks[..|h.blocks| - 1], h.blocks[|h.blocks| - 1];
    OpenContinues(s, t, e, open);
    LastGrows(h, e);
    TellsOpen(s, t, ExtendBy(h, e), closed, open.(tail := open.tail + Listed(e)), turns);
  }

  lemma LastGrows(h: History, e: Option<Entry>)
    requires h.blocks != [] && !(e.Some? && IsCommit(e.value))
    ensures var b := h.blocks[|h.blocks| - 1];
            ExtendBy(h, e) == h.(blocks := h.blocks[..|h.blocks| - 1] + [b.(tail := b.tail + Listed(e))])
  {
    var b := h.blocks[|h.blocks| - 1];
    if e.None? {
      assert b.(tail := b.tail + Listed(e)) == b;
      assert h.blocks == h.blocks[..|h.blocks| - 1] + [b];
    }
  }

  lemma TellsOpen(s: Chan, t: Chan, next: History, closed: seq<Block>, open: Block, turns: seq<string>)
    requires Preamble(next.preamble) && next.blocks == closed + [open] && t.committed
    requires Closed(s, closed, turns) && t.retired == s.retired && Open(t, open)
    ensures Tells(t, next, turns)
  {
    assert next.blocks[..|next.blocks| - 1] == closed;
  }

  lemma NotACommit(s: Chan, t: Chan, e: Option<Entry>)
    requires Move(s, t, e) && s.committed && !Commits(s, t, e)
    ensures !(e.Some? && IsCommit(e.value)) && t.committed
  {
  }

  /** Over any run the history of the log tells the state of the channel. */
  lemma {:induction false} RunTells(c: Config, workspace: string, inputs: seq<Input>) returns (turns: seq<string>)
    ensures var (s, log) := Run(c, Fresh(workspace), inputs); Tells(s, Parse(log), turns)
  {
    if inputs == [] {
      turns := [];
    } else {
      var before, after, e := LastMove(c, Fresh(workspace), inputs);
      var earlier := RunTells(c, workspace, inputs[..|inputs| - 1]);
      ReachableInv(c, workspace, inputs[..|inputs| - 1]);
      var log := Run(c, Fresh(workspace), inputs[..|inputs| - 1]).1;
      MoveTells(before, after, e, Parse(log), earlier);
      turns := Turns(before, earlier, e);
      assert e.Some? ==> (log + Listed(e))[..|log|] == log;
      assert e.None? ==> log + Listed(e) == log;
    }
  }

  /** One commit, then entries that name at most one turn, whose completion is the last notification. */
  predicate OneTurn(b: Block) {
    && IsCommit(b.commit) && (forall e <- b.tail :: !IsCommit(e))
    && (forall x <- b.tail, y <- b.tail :: Named(x).Some? && Named(y).Some? ==> Named(x) == Named(y))
    && CompletesLast(b.tail) && OneInterrupt(b.tail)
  }

  predicate TurnTrace(h: History) {
    && Preamble(h.preamble)
    && (forall b <- h.blocks :: OneTurn(b))
    && (forall i :: 0 <= i < |h.blocks| - 1 ==> Completed(h.blocks[i].tail))
    && (forall i, j :: 0 <= i < j < |h.blocks| ==> OtherTurn(h.blocks[i], h.blocks[j]))
  }

  /** No notification of the later block is about a turn the earlier block named. */
  predicate OtherTurn(earlier: Block, later: Block) {
    forall x <- earlier.tail, y <- later.tail :: Named(x).Some? && y.Noted? ==> Named(x) != Named(y)
  }

  lemma TellsTurnTrace(s: Chan, h: History, turns: seq<string>)
    requires Tells(s, h, turns)
    ensures TurnTrace(h)
  {
    var n := |h.blocks|;
    if n > 0 {
      var closed := h.blocks[..n - 1];
      assert forall i :: 0 <= i < n - 1 ==> h.blocks[i] == closed[i];
      forall i, j | 0 <= i < j < n ensures OtherTurn(h.blocks[i], h.blocks[j]) {
        if j < n - 1 {
          ClosedDiffer(h.blocks[i], turns[i], h.blocks[j], turns[j]);
        } else {
          OpenDiffers(s, h.blocks[i], turns[i], h.blocks[j]);
        }
      }
    }
  }

  lemma ClosedDiffer(a: Block, turn: string, b: Block, other: string)
    requires WellFormed(a, Some(turn)) && WellFormed(b, Some(other)) && turn != other
    ensures OtherTurn(a, b)
  {
  }

  lemma OpenDiffers(s: Chan, a: Block, turn: string, b: Block)
    requires WellFormed(a, Some(turn)) && turn in s.retired && Open(s, b)
    ensures OtherTurn(a, b)
  {
  }

  /**
   * Every run of the channel, whatever was refused on the way: its output splits into one block per
   * accepted commit, and the blocks follow the grammar of turns.
   */
  lemma RunsFollowTheGrammar(c: Config, workspace: string, inputs: seq<Input>)
    ensures var log := Run(c, Fresh(workspace), inputs).1; Flatten(Parse(log)) == log && TurnTrace(Parse(log))
  {
    var (s, log) := Run(c, Fresh(workspace), inputs);
    var turns := RunTells(c, workspace, inputs);
    TellsTurnTrace(s, Parse(log), turns);
    FlattenParse(log);
  }
}
