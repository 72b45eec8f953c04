/** The porcelain worktree list that apps/cli/src/release-train-branches.js reads. */
module WorktreeList {
  import opened Strings

  datatype Row = Row(path: string, branch: string, head: string, detached: bool, bare: bool)

  const HEADS := "refs/heads/"

  function BranchName(line: string): string
    requires StartsWith(line, "branch ")
  {
    var name := Trim(line[7..]);
    if StartsWith(name, HEADS) then name[|HEADS|..] else name
  }

  /** What a line after a worktree line adds to that worktree. */
  function ReadLine(row: Row, line: string): Row {
    if StartsWith(line, "HEAD ") then row.(head := Trim(line[5..]))
    else if StartsWith(line, "branch ") then row.(branch := BranchName(line))
    else if line == "detached" then row.(detached := true)
    else if line == "bare" then row.(bare := true)
    else row
  }

  function Read(rows: seq<Row>, line: string): seq<Row> {
    if StartsWith(line, "worktree ") then rows + [Row(line[9..], "", "", false, false)]
    else if rows == [] then rows
    else rows[..|rows| - 1] + [ReadLine(rows[|rows| - 1], line)]
  }

  function ReadAll(rows: seq<Row>, lines: seq<string>): seq<Row>
    decreases |lines|
  {
    if lines == [] then rows else ReadAll(Read(rows, lines[0]), lines[1..])
  }

  method Parse(text: string) returns (rows: seq<Row>)
    ensures rows == ReadAll([], Split(text))
  {
    var lines := Split(text);
    rows := [];
    var i := 0;
    while i < |lines|
      invariant 0 <= i <= |lines|
      invariant ReadAll(rows, lines[i..]) == ReadAll([], lines)
    {
      var line := lines[i];
      if StartsWith(line, "worktree ") {
        rows := rows + [Row(line[9..], "", "", false, false)];
      } else if rows != [] {
        rows := rows[..|rows| - 1] + [ReadLine(rows[|rows| - 1], line)];
      }
      i := i + 1;
    }
  }

  // ---------- the format git prints ----------

  /** A name git can print on its own line and that trimming leaves alone. */
  predicate Plain(s: string) {
    '\n' !in s && (s != "" ==> !Blank(s[0]) && !Blank(s[|s| - 1]))
  }

  /** A bare worktree has nothing but its path; any other has a commit, and a branch unless detached. */
  predicate Printable(row: Row) {
    && '\n' !in row.path && Plain(row.branch) && Plain(row.head)
    && (row.bare ==> row.branch == "" && row.head == "" && !row.detached)
    && (!row.bare ==> (row.detached <==> row.branch == ""))
  }

  function Attachment(row: Row): string {
    if row.detached then "detached" else "branch " + HEADS + row.branch
  }

  function PrintRow(row: Row): seq<string> {
    if row.bare then ["worktree " + row.path, "bare", ""]
    else ["worktree " + row.path, "HEAD " + row.head, Attachment(row), ""]
  }

  function Print(rows: seq<Row>): seq<string> {
    if rows == [] then [] else PrintRow(rows[0]) + Print(rows[1..])
  }

  lemma TrimPlain(s: string)
    requires Plain(s)
    ensures Trim(s) == s
  {
  }

  lemma {:induction false} ReadConcat(rows: seq<Row>, a: seq<string>, b: seq<string>)
    ensures ReadAll(rows, a + b) == ReadAll(ReadAll(rows, a), b)
    decreases |a|
  {
    if a == [] {
      assert a + b == b;
    } else {
      var next := Read(rows, a[0]);
      ReadConcat(next, a[1..], b);
      assert (a + b)[1..] == a[1..] + b;
    }
  }

  lemma HeadReads(row: Row, head: string)
    requires Plain(head)
    ensures ReadLine(row, "HEAD " + head) == row.(head := head)
  {
    assert ("HEAD " + head)[5..] == head;
    TrimPlain(head);
  }

  lemma BranchReads(row: Row, branch: string)
    requires Plain(branch)
    ensures ReadLine(row, "branch " + HEADS + branch) == row.(branch := branch)
  {
    var line, name := "branch " + HEADS + branch, HEADS + branch;
    assert line[7..] == name && line[..7] == "branch ";
    assert line[0] == 'b';
    assert "HEAD "[0] == 'H';
    TrimPlain(name);
    assert name[..|HEADS|] == HEADS && name[|HEADS|..] == branch;
  }

  /** A worktree read so far, extended by the lines that follow it. */
  lemma ReadNext(rows: seq<Row>, row: Row, lines: seq<string>)
    requires lines != [] && (lines[0] == "" || lines[0][0] != 'w')
    ensures ReadAll(rows + [row], lines) == ReadAll(rows + [ReadLine(row, lines[0])], lines[1..])
  {
    assert "worktree "[0] == 'w';
    assert (rows + [row])[..|rows|] == rows;
  }

  lemma AttachmentReads(headed: Row, row: Row)
    requires Printable(row) && !row.bare && headed == Row(row.path, "", row.head, false, false)
    ensures ReadLine(headed, Attachment(row)) == row && Attachment(row)[0] != 'w' && '\n' !in Attachment(row)
  {
    BranchReads(headed, row.branch);
    assert "HEAD "[0] == 'H' && "branch "[0] == 'b';
  }

  lemma ReadDescribed(rows: seq<Row>, begun: Row, row: Row)
    requires Printable(row) && !row.bare && begun == Row(row.path, "", "", false, false)
    ensures ReadAll(rows + [begun], ["HEAD " + row.head, Attachment(row), ""]) == rows + [row]
  {
    var headed, first, last := begun.(head := row.head), "HEAD " + row.head, Attachment(row);
    HeadReads(begun, row.head);
    assert first[0] == 'H';
    ReadNext(rows, begun, [first, last, ""]);
    assert [first, last, ""][1..] == [last, ""];
    AttachmentReads(headed, row);
    ReadNext(rows, headed, [last, ""]);
    assert [last, ""][1..] == [""];
    ReadNext(rows, row, [""]);
  }

  /** What is printed for one worktree reads back as that worktree, after any others. */
  lemma ReadRow(rows: seq<Row>, row: Row)
    requires Printable(row)
    ensures ReadAll(rows, PrintRow(row)) == rows + [row]
  {
    var lines, begun := PrintRow(row), Row(row.path, "", "", false, false);
    assert lines[0][9..] == row.path && lines[0][..9] == "worktree ";
    if row.bare {
      assert lines[1..] == ["bare", ""] && lines[1..][1..] == [""];
      ReadNext(rows, begun, lines[1..]);
      ReadNext(rows, row, [""]);
    } else {
      assert lines[1..] == ["HEAD " + row.head, Attachment(row), ""];
      ReadDescribed(rows, begun, row);
    }
  }

  lemma ReadFirst(rows: seq<Row>, row: Row, rest: seq<string>)
    requires Printable(row)
    ensures ReadAll(rows, PrintRow(row) + rest) == ReadAll(rows + [row], rest)
  {
    ReadRow(rows, row);
    ReadConcat(rows, PrintRow(row), rest);
  }

  lemma PrintFirst(listed: seq<Row>)
    requires listed != []
    ensures Print(listed) == PrintRow(listed[0]) + Print(listed[1..])
  {
  }

  ghost const PRINTABLE := iset row: Row | Printable(row)

  lemma ReadsFirst(rows: seq<Row>, listed: seq<Row>, lines: seq<string>) returns (after: seq<string>)
    requires lines == Print(listed) && listed != [] && listed[0] in PRINTABLE
    ensures after == Print(listed[1..]) && ReadAll(rows, lines) == ReadAll(rows + [listed[0]], after)
  {
    after := Print(listed[1..]);
    PrintFirst(listed);
    ReadFirst(rows, listed[0], after);
  }

  lemma {:induction false} ReadPrinted(rows: seq<Row>, listed: seq<Row>, lines: seq<string>)
    requires lines == Print(listed) && forall row <- listed :: row in PRINTABLE
    ensures ReadAll(rows, lines) == rows + listed
    decreases |listed|
  {
    if listed != [] {
      var row, rest := listed[0], listed[1..];
      var after := ReadsFirst(rows, listed, lines);
      ReadPrinted(rows + [row], rest, after);
      assert rows + [row] + rest == rows + listed;
    }
  }

  lemma RowLines(row: Row)
    requires Printable(row)
    ensures forall line <- PrintRow(row) :: '\n' !in line
  {
    assert '\n' !in "worktree " && '\n' !in "HEAD " && '\n' !in "bare";
    if !row.bare {
      AttachmentReads(Row(row.path, "", row.head, false, false), row);
    }
    forall line | line in PrintRow(row) ensures '\n' !in line {
      assert line in {"worktree " + row.path, "HEAD " + row.head, Attachment(row), "bare", ""};
    }
  }

  lemma {:induction false} PrintedLines(listed: seq<Row>)
    requires forall row <- listed :: Printable(row)
    ensures forall line <- Print(listed) :: '\n' !in line
  {
    if listed != [] {
      PrintedLines(listed[1..]);
      RowLines(listed[0]);
    }
  }

  /** Reading what git prints gives back every worktree, in order. */
  lemma ParseInvertsPrint(listed: seq<Row>)
    requires listed != [] && forall row <- listed :: Printable(row)
    ensures ReadAll([], Split(Join(Print(listed)))) == listed
  {
    PrintedLines(listed);
    SplitJoin(Print(listed));
    ReadPrinted([], listed, Print(listed));
  }
}
