/**
 * `release-train sync-branches` (apps/cli/src/release-train-branches.js): after a release, every clean
 * worktree branch behind the released commit is moved forward to it, and the moved ones are pushed.
 */
module BranchSync {
  import opened Common
  import opened CommitGraph
  import opened Strings
  import opened WorktreeList

  datatype Action = SkippedDiverged | SkippedDirty | Current | FastForwarded | WouldFastForward

  /** What happened to the branch on the remote; None when the branch was skipped. */
  datatype PushState = LocalOnly | UpToDate | WouldPush | Pending | RemoteDiverged | Pushed | PushFailed

  datatype Entry = Entry(branch: string, path: string, action: Action, unique: nat, missing: nat, dirtyFiles: nat,
                         push: Option<PushState>)

  /** The repository: its commits, its branches, what it last saw of the remote's, and the remote's. */
  datatype Refs = Refs(heads: map<string, nat>, tracking: map<string, nat>, remote: map<string, nat>)

  /**
   * What git answers apart from the refs: the porcelain status of each worktree, the worktrees whose
   * merge fails, and the branches whose push the remote takes.
   */
  datatype World = World(status: map<string, seq<string>>, unmergeable: set<string>, taken: set<string>)

  datatype Failure = UnknownBranch(branch: string) | MergeFailed(path: string)

  datatype Request = Request(sha: nat, prefix: string, dryRun: bool)

  datatype Report = Report(ok: bool, entries: seq<Entry>, pushed: bool, pushedBranches: seq<string>,
                           blocked: seq<string>)

  // ---------- one branch ----------

  predicate Untracked(line: string) {
    line == "?? node_modules" || line == "?? node_modules/"
  }

  function DirtyEntries(lines: seq<string>): seq<string> {
    if lines == [] then []
    else (if lines[0] == "" || Untracked(lines[0]) then [] else [lines[0]]) + DirtyEntries(lines[1..])
  }

  /** An unavailable status counts as one local change. */
  function DirtyCount(w: World, path: string): nat {
    if path in w.status then |DirtyEntries(w.status[path])| else 1
  }

  function ActionFor(g: Graph, tip: nat, dirty: nat, q: Request): Action {
    if !Ancestor(g, tip, q.sha) then SkippedDiverged
    else if tip != q.sha && dirty > 0 then SkippedDirty
    else if tip != q.sha then if q.dryRun then WouldFastForward else FastForwarded
    else Current
  }

  predicate Skipped(a: Action) {
    a.SkippedDiverged? || a.SkippedDirty?
  }

  function PushFor(g: Graph, refs: Refs, branch: string, q: Request): PushState {
    if branch !in refs.tracking then LocalOnly
    else if refs.tracking[branch] == q.sha then UpToDate
    else if Ancestor(g, refs.tracking[branch], q.sha) then if q.dryRun then WouldPush else Pending
    else RemoteDiverged
  }

  /** What is reported of a branch, read off the refs as they were before the call. */
  function EntryFor(g: Graph, refs: Refs, w: World, row: Row, q: Request): Entry
    requires row.branch in refs.heads
  {
    var tip, dirty := refs.heads[row.branch], DirtyCount(w, row.path);
    var action := ActionFor(g, tip, dirty, q);
    Entry(row.branch, row.path, action,
          if action.SkippedDiverged? then |Range(g, q.sha, tip)| else 0,
          |Range(g, tip, q.sha)|,
          if Skipped(action) then dirty else 0,
          if Skipped(action) then None else Some(PushFor(g, refs, row.branch, q)))
  }

  // ---------- the considered branches ----------

  function Considered(rows: seq<Row>, prefix: string): seq<Row> {
    if rows == [] then []
    else (if rows[0].branch != "" && !rows[0].bare && StartsWith(rows[0].path, prefix) then [rows[0]] else [])
         + Considered(rows[1..], prefix)
  }

  function Branches(rows: seq<Row>): set<string> {
    set row <- rows :: row.branch
  }

  /** The first worktree of every branch. */
  function Firsts(rows: seq<Row>): seq<Row> {
    if rows == [] then []
    else
      var before, last := rows[..|rows| - 1], rows[|rows| - 1];
      Firsts(before) + if last.branch in Branches(before) then [] else [last]
  }

  lemma BranchesExtend(rows: seq<Row>, row: Row)
    ensures Branches(rows + [row]) == Branches(rows) + {row.branch}
  {
    assert forall x :: x in rows + [row] <==> x in rows || x == row;
  }

  lemma {:induction false} FirstsAreDistinct(rows: seq<Row>)
    ensures Branches(Firsts(rows)) == Branches(rows)
    ensures forall i, j :: 0 <= i < j < |Firsts(rows)| ==> Firsts(rows)[i].branch != Firsts(rows)[j].branch
    ensures forall row <- Firsts(rows) :: row in rows
  {
    if rows == [] {
    } else {
      var before, last := rows[..|rows| - 1], rows[|rows| - 1];
      FirstsAreDistinct(before);
      assert rows == before + [last];
      BranchesExtend(before, last);
      OneMoreFirst(Firsts(before), last);
    }
  }

  lemma OneMoreFirst(firsts: seq<Row>, last: Row)
    requires forall i, j :: 0 <= i < j < |firsts| ==> firsts[i].branch != firsts[j].branch
    ensures Branches(firsts + [last]) == Branches(firsts) + {last.branch}
    ensures last.branch !in Branches(firsts) ==>
              forall i, j ::
                  0 <= i < j < |firsts + [last]| ==> (firsts + [last])[i].branch != (firsts + [last])[j].branch
  {
    BranchesExtend(firsts, last);
    forall i | 0 <= i < |firsts| ensures firsts[i].branch in Branches(firsts) {
      assert firsts[i] in firsts;
    }
  }

  // ---------- the refs afterwards ----------

  predicate Moves(entries: seq<Entry>, branch: string) {
    exists e <- entries :: e.branch == branch && e.action.FastForwarded?
  }

  function Advanced(heads: map<string, nat>, entries: seq<Entry>, sha: nat): map<string, nat> {
    map b <- heads :: if Moves(entries, b) then sha else heads[b]
  }

  function PendingBranches(entries: seq<Entry>): seq<string> {
    if entries == [] then []
    else (if entries[0].push == Some(Pending) then [entries[0].branch] else []) + PendingBranches(entries[1..])
  }

  /** The remote takes a branch it allows and that only moves forward there. */
  predicate Takes(g: Graph, refs: Refs, w: World, branch: string) {
    && branch in w.taken && branch in refs.heads
    && (branch in refs.remote ==> Ancestor(g, refs.remote[branch], refs.heads[branch]))
  }

  /** `git push` without force: every branch is taken or refused by itself. */
  function PushRefs(g: Graph, refs: Refs, w: World, branches: seq<string>): Refs {
    var taken := map b | b in branches && Takes(g, refs, w, b) :: refs.heads[b];
    refs.(remote := refs.remote + taken, tracking := refs.tracking + taken)
  }

  predicate PushSucceeds(g: Graph, refs: Refs, w: World, branches: seq<string>) {
    forall b <- branches :: Takes(g, refs, w, b)
  }

  function Marked(entries: seq<Entry>, ok: bool): seq<Entry> {
    seq(|entries|, i requires 0 <= i < |entries| =>
      if entries[i].push == Some(Pending) then entries[i].(push := Some(if ok then Pushed else PushFailed))
          else entries[i])
  }

  function Blocked(entries: seq<Entry>): seq<string> {
    if entries == [] then []
    else (if Skipped(entries[0].action) then [entries[0].branch] else []) + Blocked(entries[1..])
  }

  function EntriesFor(g: Graph, refs: Refs, w: World, rows: seq<Row>, q: Request): seq<Entry>
    requires Branches(rows) <= refs.heads.Keys
  {
    seq(|rows|, i requires 0 <= i < |rows| => assert rows[i].branch in Branches(rows); EntryFor(g, refs, w, rows[i], q))
  }

  /** The refs and the report of a call that git carried out to the end. */
  function Synced(g: Graph, refs: Refs, w: World, rows: seq<Row>, q: Request): (Refs, Report)
    requires Branches(Firsts(rows)) <= refs.heads.Keys
  {
    var entries := EntriesFor(g, refs, w, Firsts(rows), q);
    var moved := refs.(heads := Advanced(refs.heads, entries, q.sha));
    var pending, blocked := PendingBranches(entries), Blocked(entries);
    if pending == [] then (moved, Report(blocked == [], entries, true, [], blocked))
    else
      var ok := PushSucceeds(g, moved, w, pending);
      (PushRefs(g, moved, w, pending), Report(ok && blocked == [], Marked(entries, ok), ok, pending, blocked))
  }

  // ---------- the whole call ----------

  class Repository {
    const graph: Graph
    var heads: map<string, nat>
    var tracking: map<string, nat>
    var remote: map<string, nat>

    function Now(): Refs
      reads this
    {
      Refs(heads, tracking, remote)
    }

    /** `git merge --ff-only` in the worktree of a branch. */
    method FastForward(w: World, row: Row, sha: nat) returns (moved: bool)
      requires row.branch in heads && Ancestor(graph, heads[row.branch], sha)
      modifies this`heads
      ensures moved <==> row.path !in w.unmergeable
      ensures heads == if moved then old(heads)[row.branch := sha] else old(heads)
    {
      moved := row.path !in w.unmergeable;
      if moved {
        heads := heads[row.branch := sha];
      }
    }

    /** One worktree row whose branch has not been seen. */
    method SyncBranch(w: World, row: Row, q: Request) returns (r: Result<Entry, Failure>)
      modifies this`heads
      ensures r.Success? ==> row.branch in old(heads) && r.value == EntryFor(graph, old(Now()), w, row, q)
      ensures heads == if r.Success? && r.value.action.FastForwarded? then old(heads)[row.branch := q.sha]
              else old(heads)
      ensures r.Failure? ==> r.error == UnknownBranch(row.branch) || (r.error == MergeFailed(row.path) && !q.dryRun)
    {
      if row.branch !in heads {
        return Failure(UnknownBranch(row.branch));
      }
      var tip, dirty := heads[row.branch], DirtyCount(w, row.path);
      var entry := Entry(row.branch, row.path, Current, 0, |Range(graph, tip, q.sha)|, 0, None);
      if !Ancestor(graph, tip, q.sha) {
        return Success(entry.(action := SkippedDiverged, unique := |Range(graph, q.sha, tip)|, dirtyFiles := dirty));
      }
      if tip != q.sha && dirty > 0 {
        return Success(entry.(action := SkippedDirty, dirtyFiles := dirty));
      }
      if tip != q.sha {
        entry := entry.(action := if q.dryRun then WouldFastForward else FastForwarded);
        if !q.dryRun {
          var moved := FastForward(w, row, q.sha);
          if !moved {
            return Failure(MergeFailed(row.path));
          }
        }
      }
      return Success(entry.(push := Some(PushFor(graph, Now(), row.branch, q))));
    }

    /** Every considered branch, in the order its first worktree is listed. */
    method SyncAll(w: World, rows: seq<Row>, q: Request) returns (r: Result<seq<Entry>, Failure>)
      modifies this`heads
      ensures r.Success? ==> Branches(rows) <= old(heads).Keys && Told(graph, old(Now()), w, Firsts(rows), q, r.value)
      ensures r.Success? ==> heads == Advanced(old(heads), r.value, q.sha)
      ensures OnlyForward(graph, old(heads), heads)
      ensures q.dryRun ==> heads == old(heads)
    {
      ghost var before := Now();
      ghost var done, told;
      r, done, told := SyncRows(w, rows, q);
      AdvancedIsForward(graph, before, w, Firsts(rows[..done]), q, told);
      assert rows[..|rows|] == rows;
    }

    /** The loop over the rows: those done before git fails are told, and their branches moved. */
    method SyncRows(w: World, rows: seq<Row>, q: Request)
      returns (r: Result<seq<Entry>, Failure>, ghost done: nat, ghost told: seq<Entry>)
      modifies this`heads
      ensures done <= |rows| && Syncing(graph, old(Now()), w, rows[..done], q, Branches(rows[..done]), told, heads)
      ensures r.Success? ==> done == |rows| && told == r.value
    {
      var entries, seen := [], {};
      ghost var before := Now();
      var i := 0;
      while i < |rows|
        invariant 0 <= i <= |rows|
        invariant Syncing(graph, before, w, rows[..i], q, seen, entries, heads)
        invariant tracking == before.tracking && remote == before.remote
      {
        var row := rows[i];
        if row.branch in seen {
          SyncsAgain(graph, before, w, rows, i, q, seen, entries, heads);
        } else {
          var step := SyncUnseen(w, rows, i, q, seen, entries, before);
          if step.Failure? {
            return Failure(step.error), i, entries;
          }
          seen, entries := seen + {row.branch}, entries + [step.value];
        }
        i := i + 1;
      }
      return Success(entries), i, entries;
    }

    /** One row of the loop whose branch was not seen. */
    method SyncUnseen(w: World, rows: seq<Row>, i: nat, q: Request, seen: set<string>, entries: seq<Entry>,
                      ghost before: Refs)
      returns (step: Result<Entry, Failure>)
      requires i < |rows| && rows[i].branch !in seen && Syncing(graph, before, w, rows[..i], q, seen, entries, heads)
      requires tracking == before.tracking && remote == before.remote
      modifies this`heads
      ensures step.Failure? ==> Syncing(graph, before, w, rows[..i], q, seen, entries, heads)
      ensures step.Success? ==>
                Syncing(graph, before, w, rows[..i + 1], q, seen + {rows[i].branch}, entries + [step.value], heads)
    {
      UnseenIsUnmoved(graph, before, w, rows[..i], q, entries, rows[i].branch);
      ghost var now := heads;
      step := SyncBranch(w, rows[i], q);
      if step.Success? {
        SyncsNext(graph, before, w, rows, i, q, seen, entries, now, step.value);
      }
    }

    /** One push of every pending branch. */
    method Push(w: World, branches: seq<string>) returns (ok: bool)
      modifies this`tracking, this`remote
      ensures Now() == PushRefs(graph, old(Now()), w, branches) && ok == PushSucceeds(graph, old(Now()), w, branches)
    {
      ok := PushSucceeds(graph, Now(), w, branches);
      var pushed := PushRefs(graph, Now(), w, branches);
      tracking, remote := pushed.tracking, pushed.remote;
    }

    method Sync(w: World, text: string, q: Request) returns (r: Result<Report, Failure>)
      modifies this
      ensures r.Success? ==>
                var rows := Considered(ReadAll([], Split(text)), q.prefix);
                && Branches(Firsts(rows)) <= old(heads).Keys
                && (Now(), r.value) == Synced(graph, old(Now()), w, rows, q)
      ensures r.Failure? ==> tracking == old(tracking) && remote == old(remote) && OnlyForward(graph, old(heads), heads)
      ensures r.Failure? && q.dryRun ==> heads == old(heads)
    {
      var listed := Parse(text);
      var rows := Considered(listed, q.prefix);
      var synced := SyncAll(w, rows, q);
      if synced.Failure? {
        return Failure(synced.error);
      }
      var entries := synced.value;
      FirstsAreDistinct(rows);
      assert entries == EntriesFor(graph, old(Now()), w, Firsts(rows), q);
      var blocked, pending := Blocked(entries), PendingBranches(entries);
      if pending == [] {
        return Success(Report(blocked == [], entries, true, [], blocked));
      }
      var ok := Push(w, pending);
      return Success(Report(ok && blocked == [], Marked(entries, ok), ok, pending, blocked));
    }
  }

  /** The entries are those of the given rows, each read off the refs as they were at first. */
  ghost predicate Told(g: Graph, refs: Refs, w: World, rows: seq<Row>, q: Request, entries: seq<Entry>) {
    && |entries| == |rows|
    && forall i :: 0 <= i < |rows| ==> rows[i].branch in refs.heads && entries[i] == EntryFor(g, refs, w, rows[i], q)
  }

  /** Refs are neither added nor dropped, and end at a descendant of where they were. */
  ghost predicate OnlyForward(g: Graph, before: map<string, nat>, after: map<string, nat>) {
    before.Keys == after.Keys && forall b <- before.Keys :: Ancestor(g, before[b], after[b])
  }

  lemma UnseenIsUnmoved(g: Graph, refs: Refs, w: World, rows: seq<Row>, q: Request, entries: seq<Entry>, branch: string)
    requires Told(g, refs, w, Firsts(rows), q, entries) && branch !in Branches(rows)
    ensures !Moves(entries, branch)
  {
    FirstsAreDistinct(rows);
    forall e | e in entries ensures e.branch != branch {
      var i :| 0 <= i < |entries| && entries[i] == e;
      assert Firsts(rows)[i].branch in Branches(Firsts(rows));
    }
  }

  /** The loop after some rows: the branches seen, what is told of them, and the moved heads. */
  ghost predicate Syncing(g: Graph, before: Refs, w: World, rows: seq<Row>, q: Request, seen: set<string>,
                          entries: seq<Entry>, heads: map<string, nat>)
  {
    && seen == Branches(rows) <= before.heads.Keys
    && Told(g, before, w, Firsts(rows), q, entries)
    && heads == Advanced(before.heads, entries, q.sha)
  }

  lemma SyncsAgain(g: Graph, before: Refs, w: World, rows: seq<Row>, i: nat, q: Request, seen: set<string>,
                   entries: seq<Entry>, heads: map<string, nat>)
    requires i < |rows| && Syncing(g, before, w, rows[..i], q, seen, entries, heads) && rows[i].branch in seen
    ensures Syncing(g, before, w, rows[..i + 1], q, seen, entries, heads)
  {
    FirstsExtend(rows, i);
  }

  lemma SyncsNext(g: Graph, before: Refs, w: World, rows: seq<Row>, i: nat, q: Request, seen: set<string>,
                  entries: seq<Entry>, heads: map<string, nat>, e: Entry)
    requires i < |rows| && Syncing(g, before, w, rows[..i], q, seen, entries, heads) && rows[i].branch !in seen
    requires rows[i].branch in before.heads && e == EntryFor(g, before, w, rows[i], q)
    ensures Syncing(g, before, w, rows[..i + 1], q, seen + {rows[i].branch}, entries + [e],
                    if e.action.FastForwarded? then heads[rows[i].branch := q.sha] else heads)
  {
    FirstsExtend(rows, i);
    AdvancedBy(before.heads, entries, e, q.sha);
  }

  lemma FirstsExtend(rows: seq<Row>, i: nat)
    requires i < |rows|
    ensures Branches(rows[..i + 1]) == Branches(rows[..i]) + {rows[i].branch}
    ensures Firsts(rows[..i + 1]) == Firsts(rows[..i]) + if rows[i].branch in Branches(rows[..i]) then [] else [rows[i]]
  {
    assert rows[..i + 1][..i] == rows[..i];
  }

  lemma AdvancedIsForward(g: Graph, refs: Refs, w: World, rows: seq<Row>, q: Request, entries: seq<Entry>)
    requires Told(g, refs, w, rows, q, entries)
    ensures OnlyForward(g, refs.heads, Advanced(refs.heads, entries, q.sha))
    ensures q.dryRun ==> Advanced(refs.heads, entries, q.sha) == refs.heads
  {
    forall b | b in refs.heads && Moves(entries, b) ensures Ancestor(g, refs.heads[b], q.sha) && !q.dryRun {
      var e :| e in entries && e.branch == b && e.action.FastForwarded?;
      var i :| 0 <= i < |entries| && entries[i] == e;
      assert entries[i] == EntryFor(g, refs, w, rows[i], q);
    }
  }

  lemma AdvancedBy(heads: map<string, nat>, entries: seq<Entry>, e: Entry, sha: nat)
    requires e.branch in heads
    ensures Advanced(heads, entries + [e], sha)
            == if e.action.FastForwarded? then Advanced(heads, entries, sha)[e.branch := sha]
                else Advanced(heads, entries, sha)
  {
    forall b ensures Moves(entries + [e], b) <==> Moves(entries, b) || (e.branch == b && e.action.FastForwarded?) {
      assert e in entries + [e];
    }
  }

  // ---------- what a call does ----------

  /** The tracking refs tell where the remote's branches are. */
  predicate Accurate(refs: Refs) {
    forall b <- refs.tracking.Keys :: b in refs.remote && refs.remote[b] == refs.tracking[b]
  }

  lemma {:induction false} PendingListed(entries: seq<Entry>, b: string)
    ensures b in PendingBranches(entries) <==> exists e :: e in entries && e.branch == b && e.push == Some(Pending)
  {
    if entries != [] {
      PendingListed(entries[1..], b);
      assert entries == [entries[0]] + entries[1..];
    }
  }

  lemma {:induction false} BlockedListed(entries: seq<Entry>, b: string)
    ensures b in Blocked(entries) <==> exists e :: e in entries && e.branch == b && Skipped(e.action)
  {
    if entries != [] {
      BlockedListed(entries[1..], b);
      assert entries == [entries[0]] + entries[1..];
    }
  }

  /** A considered branch has one entry, told from its first worktree. */
  lemma EntryOf(g: Graph, refs: Refs, w: World, rows: seq<Row>, q: Request, b: string) returns (e: Entry, row: Row)
    requires Branches(Firsts(rows)) <= refs.heads.Keys && b in Branches(rows)
    ensures row in rows && row.branch == b && b in refs.heads && e == EntryFor(g, refs, w, row, q)
    ensures e in EntriesFor(g, refs, w, Firsts(rows), q)
    ensures forall x <- EntriesFor(g, refs, w, Firsts(rows), q) :: x.branch == b ==> x == e
  {
    FirstsAreDistinct(rows);
    var entries := EntriesFor(g, refs, w, Firsts(rows), q);
    row :| row in Firsts(rows) && row.branch == b;
    var i :| 0 <= i < |Firsts(rows)| && Firsts(rows)[i] == row;
    e := entries[i];
  }

  /** Where a considered branch ends, and how the report files it. */
  lemma BranchEnds(g: Graph, refs: Refs, w: World, rows: seq<Row>, q: Request, b: string)
    requires Branches(Firsts(rows)) <= refs.heads.Keys && b in Branches(rows)
    ensures var (after, report) := Synced(g, refs, w, rows, q);
            && b in after.heads
            && (b in report.blocked ==> after.heads[b] == refs.heads[b] != q.sha)
            && (b !in report.blocked && !q.dryRun ==> after.heads[b] == q.sha)
  {
    var e, row := EntryOf(g, refs, w, rows, q, b);
    BlockedListed(EntriesFor(g, refs, w, Firsts(rows), q), b);
  }

  /**
   * A call that is not a dry run blocks exactly the considered branches that do not end at the released
   * commit, leaves those as they were, and is reported good only if there are none.
   */
  lemma GoodReportsReachTheRelease(g: Graph, refs: Refs, w: World, rows: seq<Row>, q: Request)
    requires Branches(Firsts(rows)) <= refs.heads.Keys && !q.dryRun
    ensures var (after, report) := Synced(g, refs, w, rows, q);
            && (forall b <- Branches(rows) :: b in report.blocked <==> b in after.heads && after.heads[b] != q.sha)
            && (forall b <- report.blocked :: b in refs.heads && b in after.heads && after.heads[b] == refs.heads[b])
            && (report.ok ==> forall b <- Branches(rows) :: b in after.heads && after.heads[b] == q.sha)
  {
    var (after, report) := Synced(g, refs, w, rows, q);
    forall b | b in Branches(rows)
      ensures b in after.heads && (b in report.blocked <==> after.heads[b] != q.sha)
      ensures b in report.blocked ==> after.heads[b] == refs.heads[b]
    {
      BranchEnds(g, refs, w, rows, q, b);
    }
    forall b | b in report.blocked ensures b in Branches(rows) {
      BlockedListed(EntriesFor(g, refs, w, Firsts(rows), q), b);
      FirstsAreDistinct(rows);
    }
    if report.ok {
      forall b | b in Branches(rows) ensures b !in report.blocked {
      }
    }
  }

  /** Every ref, here and on the remote, stays or moves to a descendant; branches outside the call stay. */
  lemma NothingIsRewritten(g: Graph, refs: Refs, w: World, rows: seq<Row>, q: Request)
    requires Branches(Firsts(rows)) <= refs.heads.Keys
    ensures var (after, report) := Synced(g, refs, w, rows, q);
            && OnlyForward(g, refs.heads, after.heads)
            && (forall b <- refs.remote.Keys :: b in after.remote && Ancestor(g, refs.remote[b], after.remote[b]))
            && (forall b <- refs.heads.Keys :: b !in Branches(rows) ==> after.heads[b] == refs.heads[b])
            && (q.dryRun ==> after == refs)
  {
    var entries := EntriesFor(g, refs, w, Firsts(rows), q);
    AdvancedIsForward(g, refs, w, Firsts(rows), q, entries);
    OnlyRowsMove(g, refs, w, rows, q);
    if q.dryRun {
      NonePending(entries);
    }
  }

  lemma OnlyRowsMove(g: Graph, refs: Refs, w: World, rows: seq<Row>, q: Request)
    requires Branches(Firsts(rows)) <= refs.heads.Keys
    ensures forall b | Moves(EntriesFor(g, refs, w, Firsts(rows), q), b) :: b in Branches(rows)
  {
    var entries := EntriesFor(g, refs, w, Firsts(rows), q);
    FirstsAreDistinct(rows);
    forall b | Moves(entries, b) ensures b in Branches(rows) {
      var e :| e in entries && e.branch == b;
    }
  }

  lemma {:induction false} NonePending(entries: seq<Entry>)
    requires forall e <- entries :: e.push != Some(Pending)
    ensures PendingBranches(entries) == []
  {
    if entries != [] {
      NonePending(entries[1..]);
    }
  }

  /** With accurate tracking refs a push is only ever refused by the remote's own choice. */
  lemma PendingMovesForward(g: Graph, refs: Refs, w: World, rows: seq<Row>, q: Request, b: string)
    requires Branches(Firsts(rows)) <= refs.heads.Keys && Accurate(refs)
    ensures var entries := EntriesFor(g, refs, w, Firsts(rows), q);
            b in PendingBranches(entries) ==>
                (Takes(g, refs.(heads := Advanced(refs.heads, entries, q.sha)), w, b) <==> b in w.taken)
  {
    var entries := EntriesFor(g, refs, w, Firsts(rows), q);
    var moved := refs.(heads := Advanced(refs.heads, entries, q.sha));
    if b in PendingBranches(entries) {
      PendingListed(entries, b);
      var x :| x in entries && x.branch == b && x.push == Some(Pending);
      FirstsAreDistinct(rows);
      assert b in Branches(rows);
      var e, row := EntryOf(g, refs, w, rows, q, b);
      assert moved.heads[b] == q.sha && Ancestor(g, refs.tracking[b], q.sha);
    }
  }

  /** The branches that a call pushes: fetched before, and behind the released commit when fetched. */
  predicate Pushes(g: Graph, refs: Refs, q: Request, b: string) {
    b in refs.tracking && refs.tracking[b] != q.sha && Ancestor(g, refs.tracking[b], q.sha)
  }

  /** After a good report the remote has the release of the branches that were pushed; of others it has what it had. */
  lemma PushedOrLeft(g: Graph, refs: Refs, w: World, rows: seq<Row>, q: Request, b: string)
    requires Branches(Firsts(rows)) <= refs.heads.Keys && !q.dryRun
    requires Synced(g, refs, w, rows, q).1.ok && b in Branches(rows)
    ensures var after := Synced(g, refs, w, rows, q).0;
            if Pushes(g, refs, q, b) then b in after.remote && after.remote[b] == q.sha
            else (b in after.remote <==> b in refs.remote) && (b in refs.remote ==> after.remote[b] == refs.remote[b])
  {
    var entries := EntriesFor(g, refs, w, Firsts(rows), q);
    var moved := refs.(heads := Advanced(refs.heads, entries, q.sha));
    var e, row := EntryOf(g, refs, w, rows, q, b);
    BlockedListed(entries, b);
    PendingListed(entries, b);
    assert !Skipped(e.action);
    if e.push == Some(Pending) {
      assert moved.heads[b] == q.sha;
    }
  }

  /**
   * A good report does not promise that the remote has the release of a considered branch. It does
   * exactly if the branch was behind the release when last fetched, or the remote was there already: a
   * branch that was never fetched is not pushed, and one that diverged on the remote is left.
   */
  lemma GoodReportsMayLeaveTheRemoteBehind(g: Graph, refs: Refs, w: World, rows: seq<Row>, q: Request, b: string)
    requires Branches(Firsts(rows)) <= refs.heads.Keys && !q.dryRun
    requires Synced(g, refs, w, rows, q).1.ok && b in Branches(rows)
    ensures var after := Synced(g, refs, w, rows, q).0;
            var released := b in after.remote && after.remote[b] == q.sha;
            var there := b in refs.remote && refs.remote[b] == q.sha;
            && (released <==> Pushes(g, refs, q, b) || there)
            && (Accurate(refs) ==>
               (released <==> (b in refs.tracking && Ancestor(g, refs.tracking[b], q.sha)) || there))
  {
    PushedOrLeft(g, refs, w, rows, q, b);
  }

  /** A call for one clean branch that is at the release already. */
  lemma OneCurrent(g: Graph, refs: Refs, w: World, row: Row, q: Request)
    requires row.branch in refs.heads && refs.heads[row.branch] == q.sha && !q.dryRun && !Pushes(g, refs, q, row.branch)
    ensures Firsts([row]) == [row] && Branches([row]) == {row.branch} && Branches(Firsts([row])) <= refs.heads.Keys
    ensures Synced(g, refs, w, [row], q).1.ok && Synced(g, refs, w, [row], q).0.remote == refs.remote
  {
    FirstsAreDistinct([row]);
    assert [row][..0] == [];
    assert Firsts([row]) == Firsts([]) + [row];
    var entries := EntriesFor(g, refs, w, [row], q);
    var e := EntryFor(g, refs, w, row, q);
    assert entries == [e] && e.action == Current && e.push != Some(Pending);
    assert entries[1..] == [];
    assert Blocked(entries) == [] + Blocked(entries[1..]);
    assert PendingBranches(entries) == [] + PendingBranches(entries[1..]) && PendingBranches([]) == [];
  }

  /** A good report of a branch that exists only here: the remote never gets it. */
  lemma LocalOnlyIsLeft(row: Row, w: World)
    ensures var g, refs, q := [{}], Refs(map[row.branch := 0], map[], map[]), Request(0, "", false);
            && WellFormed(g) && Accurate(refs) && Branches(Firsts([row])) <= refs.heads.Keys
            && Synced(g, refs, w, [row], q).1.ok && row.branch !in Synced(g, refs, w, [row], q).0.remote
  {
    OneCurrent([{}], Refs(map[row.branch := 0], map[], map[]), w, row, Request(0, "", false));
  }

  /** A good report of a branch that has another commit on the remote: it keeps that one. */
  lemma DivergedIsLeft(row: Row, w: World)
    ensures var b := row.branch;
            var g, refs, q := [{}, {0}, {0}], Refs(map[b := 1], map[b := 2], map[b := 2]), Request(1, "", false);
            && WellFormed(g) && Accurate(refs) && Branches(Firsts([row])) <= refs.heads.Keys
            && Synced(g, refs, w, [row], q).1.ok
            && b in Synced(g, refs, w, [row], q).0.remote && Synced(g, refs, w, [row], q).0.remote[b] == 2
  {
    var b := row.branch;
    var g: Graph := [{}, {0}, {0}];
    assert !Ancestor(g, 2, 0);
    OneCurrent(g, Refs(map[b := 1], map[b := 2], map[b := 2]), w, row, Request(1, "", false));
  }

  /** A dry run announces what the call would do: the same branches blocked, moved and pushed. */
  lemma DryRunForetells(g: Graph, refs: Refs, w: World, row: Row, q: Request)
    requires row.branch in refs.heads && !q.dryRun
    ensures var done, dry := EntryFor(g, refs, w, row, q), EntryFor(g, refs, w, row, q.(dryRun := true));
            && dry == done.(action := dry.action, push := dry.push)
            && (dry.action == WouldFastForward <==> done.action == FastForwarded)
            && (dry.push == Some(WouldPush) <==> done.push == Some(Pending))
            && (dry.action != WouldFastForward ==> dry.action == done.action)
            && (dry.push != Some(WouldPush) ==> dry.push == done.push)
  {
  }

  /** The counts explain the action: own commits exactly on diverged branches, none missing once synced. */
  lemma CountsExplain(g: Graph, refs: Refs, w: World, row: Row, q: Request)
    requires row.branch in refs.heads
    ensures var e := EntryFor(g, refs, w, row, q);
            && (e.unique > 0 <==> e.action.SkippedDiverged?)
            && (e.missing == 0 <==> Ancestor(g, q.sha, refs.heads[row.branch]))
            && (e.action.Current? ==> e.missing == 0)
            && (e.action.FastForwarded? ==> e.missing > 0)
  {
    var tip := refs.heads[row.branch];
    RangeIsEmpty(g, q.sha, tip);
    RangeIsEmpty(g, tip, q.sha);
    if Ancestor(g, tip, q.sha) && Ancestor(g, q.sha, tip) {
      AncestorIsOlder(g, tip, q.sha);
      AncestorIsOlder(g, q.sha, tip);
    }
  }
}
