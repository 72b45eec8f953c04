/** Framing of the journalctl output into records (service_watch.py, journal_batch). */
module Journal {
  import opened Common

  newtype Byte = b: int | 0 <= b < 256

  const NEWLINE: Byte := 10
  const BOUND := 65536

  datatype Error = BadScope | BadBound | ReadTimeout | RecordExceedsBound | InvalidRecord | ReadFailed

  /** How the output ends: the deadline passes, or the stream closes and the process exits. */
  datatype Ending = Timeout | Closed(exitOk: bool)

  function FirstNewline(s: seq<Byte>): (n: nat)
    ensures n <= |s| && (n < |s| ==> s[n] == NEWLINE)
    ensures forall i :: 0 <= i < n ==> s[i] != NEWLINE
  {
    if s == [] || s[0] == NEWLINE then 0
    else
      var n := FirstNewline(s[1..]);
      assert forall i :: 1 <= i < n + 1 ==> s[i] == s[1..][i - 1];
      n + 1
  }

  function Concat(chunks: seq<seq<Byte>>): seq<Byte> {
    if chunks == [] then [] else chunks[0] + Concat(chunks[1..])
  }

  /** The complete lines of an output, and what follows the last newline. */
  function Lines(s: seq<Byte>): seq<seq<Byte>>
    decreases |s|
  {
    var n := FirstNewline(s);
    if n == |s| then [] else [s[..n]] + Lines(s[n + 1..])
  }

  function Tail(s: seq<Byte>): seq<Byte>
    decreases |s|
  {
    var n := FirstNewline(s);
    if n == |s| then s else Tail(s[n + 1..])
  }

  /** What a batch is, as a function of the bytes alone: the first `limit` records, or the first error. */
  function Batch<T>(parse: seq<Byte> -> Option<T>, s: seq<Byte>, limit: nat, ending: Ending): Result<seq<T>, Error>
    requires limit > 0
    decreases |s|, 0
  {
    var n := FirstNewline(s);
    if n < |s| then AfterLine(parse, s[..n], s[n + 1..], limit, ending)
    else if n > BOUND then Failure(RecordExceedsBound)
    else if ending.Timeout? then Failure(ReadTimeout)
    else if !ending.exitOk || s != [] then Failure(ReadFailed)
    else Success([])
  }

  /** The batch of a complete line and the bytes that follow it. */
  function AfterLine<T>(parse: seq<Byte> -> Option<T>, line: seq<Byte>, next: seq<Byte>, limit: nat,
                        ending: Ending): Result<seq<T>, Error>
    requires limit > 0
    decreases |next|, 1
  {
    if |line| > BOUND then Failure(RecordExceedsBound)
    else match parse(line)
      case None => Failure(InvalidRecord)
      case Some(row) => if limit == 1 then Success([row]) else Then([row], Batch(parse, next, limit - 1, ending))
  }

  function Then<T>(rows: seq<T>, rest: Result<seq<T>, Error>): Result<seq<T>, Error> {
    match rest
    case Success(more) => Success(rows + more)
    case Failure(e) => Failure(e)
  }

  lemma ThenThen<T>(a: seq<T>, b: seq<T>, rest: Result<seq<T>, Error>)
    ensures Then(a, Then(b, rest)) == Then(a + b, rest)
  {
    match rest
    case Success(more) => assert a + (b + more) == a + b + more;
    case Failure(_) =>
  }

  lemma NewlineOfPrefix(a: seq<Byte>, b: seq<Byte>)
    ensures FirstNewline(a) < |a| ==> FirstNewline(a + b) == FirstNewline(a)
    ensures FirstNewline(a) == |a| ==> FirstNewline(a + b) >= |a|
  {
    assert forall i :: 0 <= i < |a| ==> (a + b)[i] == a[i];
  }

  /** Where the reading loop stands: rows are collected, and the unread bytes decide the rest. */
  ghost predicate Reading<T>(parse: seq<Byte> -> Option<T>, all: seq<Byte>, rows: seq<T>, unread: seq<Byte>,
                             limit: nat, ending: Ending) {
    && |rows| < limit
    && Batch(parse, all, limit, ending) == Then(rows, Batch(parse, unread, limit - |rows|, ending))
  }

  /** What a line in the buffer leads to: the batch of its first line, and of what follows. */
  lemma FirstLine<T>(parse: seq<Byte> -> Option<T>, buffer: seq<Byte>, rest: seq<Byte>, limit: nat, ending: Ending)
    requires limit > 0 && FirstNewline(buffer) < |buffer|
    ensures var n := FirstNewline(buffer);
            Batch(parse, buffer + rest, limit, ending)
                == AfterLine(parse, buffer[..n], buffer[n + 1..] + rest, limit, ending)
  {
    var n := FirstNewline(buffer);
    NewlineOfPrefix(buffer, rest);
    assert (buffer + rest)[..n] == buffer[..n] && (buffer + rest)[n + 1..] == buffer[n + 1..] + rest;
  }

  /** One complete line is in the buffer. */
  lemma LineStep<T>(parse: seq<Byte> -> Option<T>, all: seq<Byte>, rows: seq<T>, buffer: seq<Byte>, rest: seq<Byte>,
                    limit: nat, ending: Ending)
    requires Reading(parse, all, rows, buffer + rest, limit, ending)
    requires FirstNewline(buffer) < |buffer|
    ensures var n := FirstNewline(buffer);
            var row := parse(buffer[..n]);
            if n > BOUND then Batch(parse, all, limit, ending) == Failure(RecordExceedsBound)
            else if row.None? then Batch(parse, all, limit, ending) == Failure(InvalidRecord)
            else if |rows| + 1 == limit then Batch(parse, all, limit, ending) == Success(rows + [row.value])
            else Reading(parse, all, rows + [row.value], buffer[n + 1..] + rest, limit, ending)
  {
    var n := FirstNewline(buffer);
    FirstLine(parse, buffer, rest, limit - |rows|, ending);
    RowsAndLine(parse, rows, buffer[..n], buffer[n + 1..] + rest, limit, ending);
  }

  lemma RowsAndLine<T>(parse: seq<Byte> -> Option<T>, rows: seq<T>, line: seq<Byte>, next: seq<Byte>, limit: nat,
                       ending: Ending)
    requires |rows| < limit
    ensures var all, row := Then(rows, AfterLine(parse, line, next, limit - |rows|, ending)), parse(line);
            if |line| > BOUND then all == Failure(RecordExceedsBound)
            else if row.None? then all == Failure(InvalidRecord)
            else if |rows| + 1 == limit then all == Success(rows + [row.value])
            else all == Then(rows + [row.value], Batch(parse, next, limit - |rows| - 1, ending))
  {
    var row := parse(line);
    if |line| <= BOUND && row.Some? && |rows| + 1 < limit {
      ThenThen(rows, [row.value], Batch(parse, next, limit - |rows| - 1, ending));
    }
  }

  /** The buffer holds no newline and is already too long. */
  lemma LongStep<T>(parse: seq<Byte> -> Option<T>, all: seq<Byte>, rows: seq<T>, buffer: seq<Byte>, rest: seq<Byte>,
                    limit: nat, ending: Ending)
    requires Reading(parse, all, rows, buffer + rest, limit, ending)
    requires FirstNewline(buffer) == |buffer| > BOUND
    ensures Batch(parse, all, limit, ending) == Failure(RecordExceedsBound)
  {
    NewlineOfPrefix(buffer, rest);
    LongLine(parse, buffer + rest, limit - |rows|, ending);
  }

  lemma LongLine<T>(parse: seq<Byte> -> Option<T>, s: seq<Byte>, limit: nat, ending: Ending)
    requires limit > 0 && FirstNewline(s) > BOUND
    ensures Batch(parse, s, limit, ending) == Failure(RecordExceedsBound)
  {
  }

  /** A scope is explicit: one to 32 service units. */
  predicate Scope(units: seq<string>) {
    1 <= |units| <= 32 && forall unit <- units :: UnitName(unit)
  }

  /** journal_batch: a bad scope or bound is refused before journalctl runs. */
  method JournalBatch<T>(parse: seq<Byte> -> Option<T>, units: seq<string>, chunks: seq<seq<Byte>>, ending: Ending,
                         limit: int, lookback: int)
    returns (r: Result<seq<T>, Error>)
    ensures !Scope(units) ==> r == Failure(BadScope)
    ensures Scope(units) && !(1 <= limit <= 2000 && 1 <= lookback <= 86400) ==> r == Failure(BadBound)
    ensures Scope(units) && 1 <= limit <= 2000 && 1 <= lookback <= 86400 ==>
            r == Batch(parse, Concat(chunks), limit, ending)
  {
    if !Scope(units) {
      return Failure(BadScope);
    }
    if !(1 <= limit <= 2000) || !(1 <= lookback <= 86400) {
      return Failure(BadBound);
    }
    r := ReadRows(parse, chunks, ending, limit);
  }

  /**
   * The reading loop. However the output is cut into reads, the result depends only on the
   * bytes and on how they end.
   */
  method ReadRows<T>(parse: seq<Byte> -> Option<T>, chunks: seq<seq<Byte>>, ending: Ending, limit: nat)
    returns (r: Result<seq<T>, Error>)
    requires limit > 0
    ensures r == Batch(parse, Concat(chunks), limit, ending)
  {
    var rows: seq<T>, buffer: seq<Byte> := [], [];
    ghost var all := Concat(chunks);
    assert [] + all == all;
    Unit(Batch(parse, all, limit, ending));
    for i := 0 to |chunks|
      invariant |buffer| <= BOUND && FirstNewline(buffer) == |buffer|
      invariant Reading(parse, all, rows, buffer + Concat(chunks[i..]), limit, ending)
    {
      ghost var rest := Concat(chunks[i + 1..]);
      NextChunk(buffer, chunks, i);
      var result;
      rows, buffer, result := TakeLines(parse, rows, buffer + chunks[i], limit, all, rest, ending);
      if result.Some? {
        return result.value;
      }
      if |buffer| > BOUND {
        LongStep(parse, all, rows, buffer, rest, limit, ending);
        return Failure(RecordExceedsBound);
      }
    }
    assert buffer + Concat(chunks[|chunks|..]) == buffer;
    if ending.Timeout? {
      return Failure(ReadTimeout);
    }
    if !ending.exitOk || buffer != [] {
      return Failure(ReadFailed);
    }
    assert rows + [] == rows;
    r := Success(rows);
  }

  /** The inner loop: take the complete lines of the buffer, up to the limit or an error. */
  method TakeLines<T>(parse: seq<Byte> -> Option<T>, rows0: seq<T>, buffer0: seq<Byte>, limit: nat,
                      ghost all: seq<Byte>, ghost rest: seq<Byte>, ghost ending: Ending)
    returns (rows: seq<T>, buffer: seq<Byte>, result: Option<Result<seq<T>, Error>>)
    requires Reading(parse, all, rows0, buffer0 + rest, limit, ending)
    ensures result.Some? ==> result.value == Batch(parse, all, limit, ending)
    ensures result.None? ==> Reading(parse, all, rows, buffer + rest, limit, ending) && FirstNewline(buffer) == |buffer|
  {
    rows, buffer, result := rows0, buffer0, None;
    while FirstNewline(buffer) < |buffer|
      invariant Reading(parse, all, rows, buffer + rest, limit, ending)
      decreases |buffer|
    {
      var n := FirstNewline(buffer);
      LineStep(parse, all, rows, buffer, rest, limit, ending);
      var line := buffer[..n];
      buffer := buffer[n + 1..];
      if |line| > BOUND {
        result := Some(Failure(RecordExceedsBound));
        return;
      }
      var row := parse(line);
      if row.None? {
        result := Some(Failure(InvalidRecord));
        return;
      }
      rows := rows + [row.value];
      if |rows| >= limit {
        result := Some(Success(rows));
        return;
      }
    }
  }

  lemma NextChunk(buffer: seq<Byte>, chunks: seq<seq<Byte>>, i: nat)
    requires i < |chunks|
    ensures buffer + Concat(chunks[i..]) == buffer + chunks[i] + Concat(chunks[i + 1..])
  {
    assert chunks[i..][1..] == chunks[i + 1..];
    assert buffer + (chunks[i] + Concat(chunks[i + 1..])) == buffer + chunks[i] + Concat(chunks[i + 1..]);
  }

  lemma Unit<T>(rest: Result<seq<T>, Error>)
    ensures Then([], rest) == rest
  {
    match rest
    case Success(more) => assert [] + more == more;
    case Failure(_) =>
  }

  function Taken(limit: nat, n: nat): nat {
    if limit < n then limit else n
  }

  /** The first n lines are records within the bound. */
  predicate GoodLines<T>(parse: seq<Byte> -> Option<T>, lines: seq<seq<Byte>>, n: nat)
    requires n <= |lines|
  {
    forall i :: 0 <= i < n ==> |lines[i]| <= BOUND && parse(lines[i]).Some?
  }

  /** rows are the records of the first lines. */
  ghost predicate Parsed<T>(parse: seq<Byte> -> Option<T>, lines: seq<seq<Byte>>, rows: seq<T>)
    requires |rows| <= |lines|
  {
    forall i :: 0 <= i < |rows| ==> parse(lines[i]) == Some(rows[i])
  }

  lemma LinesCons<T>(parse: seq<Byte> -> Option<T>, line: seq<Byte>, rest: seq<seq<Byte>>, n: nat)
    requires n <= |rest|
    ensures GoodLines(parse, [line] + rest, n + 1) <==>
            |line| <= BOUND && parse(line).Some? && GoodLines(parse, rest, n)
  {
    var lines := [line] + rest;
    assert lines[0] == line && forall i :: 0 <= i < |rest| ==> lines[i + 1] == rest[i];
    if GoodLines(parse, lines, n + 1) {
      forall i | 0 <= i < n ensures |rest[i]| <= BOUND && parse(rest[i]).Some? {
        assert lines[i + 1] == rest[i];
      }
    }
    if |line| <= BOUND && parse(line).Some? && GoodLines(parse, rest, n) {
      forall i | 0 <= i < n + 1 ensures |lines[i]| <= BOUND && parse(lines[i]).Some? {
        if i > 0 { assert lines[i] == rest[i - 1]; }
      }
    }
  }

  /** The result that some complete lines and a tail call for. */
  ghost predicate Outcome<T>(parse: seq<Byte> -> Option<T>, lines: seq<seq<Byte>>, clean: bool, limit: nat,
                             r: Result<seq<T>, Error>) {
    var n := Taken(limit, |lines|);
    && (r.Success? <==> GoodLines(parse, lines, n) && (n < limit ==> clean))
    && (r.Success? ==> |r.value| == n && Parsed(parse, lines, r.value))
  }

  lemma OutcomeCons<T>(parse: seq<Byte> -> Option<T>, line: seq<Byte>, rest: seq<seq<Byte>>, clean: bool, limit: nat,
                       r: Result<seq<T>, Error>)
    requires limit > 1 && Outcome(parse, rest, clean, limit - 1, r) && |line| <= BOUND && parse(line).Some?
    ensures Outcome(parse, [line] + rest, clean, limit, Then([parse(line).value], r))
  {
    LinesCons(parse, line, rest, Taken(limit - 1, |rest|));
  }

  lemma OutcomeBad<T>(parse: seq<Byte> -> Option<T>, line: seq<Byte>, rest: seq<seq<Byte>>, clean: bool, limit: nat,
                      e: Error)
    requires limit > 0 && !(|line| <= BOUND && parse(line).Some?)
    ensures Outcome(parse, [line] + rest, clean, limit, Failure(e))
  {
    assert ([line] + rest)[0] == line;
  }

  lemma OutcomeLast<T>(parse: seq<Byte> -> Option<T>, line: seq<Byte>, rest: seq<seq<Byte>>, clean: bool)
    requires |line| <= BOUND && parse(line).Some?
    ensures Outcome(parse, [line] + rest, clean, 1, Success([parse(line).value]))
  {
  }

  /**
   * A batch succeeds exactly when the first min(limit, n) of its n complete lines are records, and,
   * if those are fewer than the limit, the output ended cleanly at a newline. Its rows are those records.
   */
  lemma {:induction false} BatchIsFirstLines<T>(parse: seq<Byte> -> Option<T>, s: seq<Byte>, limit: nat, ending: Ending)
    requires limit > 0
    ensures Outcome(parse, Lines(s), |Tail(s)| == 0 && ending == Closed(true), limit, Batch(parse, s, limit, ending))
    decreases |s|
  {
    var k := FirstNewline(s);
    if k < |s| {
      var clean, next := |Tail(s)| == 0 && ending == Closed(true), s[k + 1..];
      if limit > 1 {
        BatchIsFirstLines(parse, next, limit - 1, ending);
      }
      OutcomeAfter(parse, s[..k], next, Lines(next), clean, limit, ending);
    }
  }

  lemma OutcomeAfter<T>(parse: seq<Byte> -> Option<T>, line: seq<Byte>, next: seq<Byte>, rest: seq<seq<Byte>>,
                        clean: bool, limit: nat,
                        ending: Ending)
    requires limit > 0 && (limit > 1 ==> Outcome(parse, rest, clean, limit - 1, Batch(parse, next, limit - 1, ending)))
    ensures Outcome(parse, [line] + rest, clean, limit, AfterLine(parse, line, next, limit, ending))
  {
    if |line| > BOUND || parse(line).None? {
      OutcomeBad(parse, line, rest, clean, limit, AfterLine(parse, line, next, limit, ending).error);
    } else if limit == 1 {
      OutcomeLast(parse, line, rest, clean);
    } else {
      OutcomeCons(parse, line, rest, clean, limit, Batch(parse, next, limit - 1, ending));
    }
  }

  /** The output journalctl prints for some records. */
  function Framed(records: seq<seq<Byte>>): seq<Byte> {
    if records == [] then [] else records[0] + [NEWLINE] + Framed(records[1..])
  }

  /** Framing round trip: records without newlines are recovered, in order, with nothing left over. */
  lemma {:induction false} LinesOfFramed(records: seq<seq<Byte>>)
    requires forall r <- records :: NEWLINE !in r
    ensures Lines(Framed(records)) == records && Tail(Framed(records)) == []
  {
    if records != [] {
      OneFramed(records[0], Framed(records[1..]));
      LinesOfFramed(records[1..]);
    }
  }

  lemma OneFramed(r: seq<Byte>, rest: seq<Byte>)
    requires NEWLINE !in r
    ensures var s := r + [NEWLINE] + rest; FirstNewline(s) == |r| && s[..|r|] == r && s[|r| + 1..] == rest
  {
    var s := r + [NEWLINE] + rest;
    assert s[|r|] == NEWLINE;
    assert forall i :: 0 <= i < |r| ==> s[i] == r[i] && r[i] in r;
  }

  /** Cutting an output short loses lines at its end only. */
  lemma {:induction false} LinesOfPrefix(a: seq<Byte>, b: seq<Byte>)
    ensures Lines(a) <= Lines(a + b)
    decreases |a|
  {
    var n := FirstNewline(a);
    if n < |a| {
      var line, next := a[..n], a[n + 1..];
      LinesOfPrefix(next, b);
      LinesNext(a, b);
      SamePrefix(line, Lines(next), Lines(next + b));
      LinesNext(a, []);
      assert a + [] == a && next + [] == next;
    }
  }

  lemma SamePrefix(line: seq<Byte>, lines: seq<seq<Byte>>, more: seq<seq<Byte>>)
    requires lines <= more
    ensures [line] + lines <= [line] + more
  {
  }

  lemma LinesNext(a: seq<Byte>, b: seq<Byte>)
    requires FirstNewline(a) < |a|
    ensures var n := FirstNewline(a); Lines(a + b) == [a[..n]] + Lines(a[n + 1..] + b)
  {
    var n := FirstNewline(a);
    NewlineOfPrefix(a, b);
    assert (a + b)[..n] == a[..n] && (a + b)[n + 1..] == a[n + 1..] + b;
  }

  /**
   * What a successful batch returns when journalctl prints the records of some rows, wherever its
   * output is cut: the first of those rows, in order, none skipped and none doubled.
   */
  lemma BatchOfFramed<T>(parse: seq<Byte> -> Option<T>, lines: seq<seq<Byte>>, rows: seq<T>, s: seq<Byte>, limit: nat,
                         ending: Ending)
    requires limit > 0 && |lines| == |rows| && s <= Framed(lines)
    requires forall i :: 0 <= i < |rows| ==> NEWLINE !in lines[i] && parse(lines[i]) == Some(rows[i])
    requires Batch(parse, s, limit, ending).Success?
    ensures Batch(parse, s, limit, ending).value <= rows
  {
    var taken := Batch(parse, s, limit, ending).value;
    var rest := Framed(lines)[|s|..];
    assert Framed(lines) == s + rest;
    LinesOfFramed(lines);
    LinesOfPrefix(s, rest);
    BatchIsFirstLines(parse, s, limit, ending);
    forall i | 0 <= i < |taken| ensures taken[i] == rows[i] {
      assert Lines(s)[i] == lines[i];
    }
  }

  /**
   * Nothing is held back: when all of them are printed, a batch succeeds exactly if the first min(limit, n)
   * are within the bound and, if there are fewer than the limit, the output ended cleanly; it is those rows.
   */
  lemma BatchOfAllFramed<T>(parse: seq<Byte> -> Option<T>, lines: seq<seq<Byte>>, rows: seq<T>, limit: nat,
                            ending: Ending)
    requires limit > 0 && |lines| == |rows|
    requires forall i :: 0 <= i < |rows| ==> NEWLINE !in lines[i] && parse(lines[i]) == Some(rows[i])
    ensures var r, n := Batch(parse, Framed(lines), limit, ending), Taken(limit, |rows|);
            && (r.Success? <==>
               (forall line <- lines[..n] :: |line| <= BOUND) && (n < limit ==> ending == Closed(true)))
            && (r.Success? ==> r.value == rows[..n])
  {
    LinesOfFramed(lines);
    BatchIsFirstLines(parse, Framed(lines), limit, ending);
    var r, n := Batch(parse, Framed(lines), limit, ending), Taken(limit, |rows|);
    assert GoodLines(parse, lines, n) <==> forall line <- lines[..n] :: |line| <= BOUND by {
      assert forall i :: 0 <= i < n ==> lines[..n][i] == lines[i];
    }
    if r.Success? {
      assert forall i :: 0 <= i < n ==> parse(lines[i]) == Some(r.value[i]);
    }
  }
}
