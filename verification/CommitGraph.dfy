/** Ancestry in a commit graph, as `git merge-base --is-ancestor` and `git rev-list --count` read it. */
module CommitGraph {

  /** Commit i is at index i, with its parents; parents come first, so the graph has no cycle. */
  type Graph = seq<set<nat>>

  predicate WellFormed(g: Graph) {
    forall i :: 0 <= i < |g| ==> forall p <- g[i] :: p < i
  }

  /** `a` is `b` or is reached from it through parents. */
  predicate Ancestor(g: Graph, a: nat, b: nat)
    decreases b
  {
    a == b || (b < |g| && exists p <- g[b] :: p < b && Ancestor(g, a, p))
  }

  /** A line of commits, each a parent of the next. */
  predicate Path(g: Graph, line: seq<nat>) {
    line != [] && forall i :: 0 < i < |line| ==> line[i] < |g| && line[i - 1] in g[line[i]]
  }

  predicate Joins(g: Graph, line: seq<nat>, a: nat, b: nat) {
    Path(g, line) && line[0] == a && line[|line| - 1] == b
  }

  lemma {:induction false} PathOf(g: Graph, a: nat, b: nat) returns (line: seq<nat>)
    requires Ancestor(g, a, b)
    ensures Joins(g, line, a, b)
    decreases b
  {
    if a == b {
      line := [a];
    } else {
      var p :| p in g[b] && p < b && Ancestor(g, a, p);
      var shorter := PathOf(g, a, p);
      line := shorter + [b];
    }
  }

  lemma {:induction false} PathAscends(g: Graph, line: seq<nat>)
    requires WellFormed(g) && Path(g, line)
    ensures Ancestor(g, line[0], line[|line| - 1])
    decreases |line|
  {
    var n := |line| - 1;
    if n > 0 {
      PathAscends(g, line[..n]);
      assert line[n - 1] in g[line[n]] && line[n - 1] < line[n];
    }
  }

  /** In a graph without cycles one commit is an ancestor of another exactly when parents lead back to it. */
  lemma AncestorIffPath(g: Graph, a: nat, b: nat)
    requires WellFormed(g)
    ensures Ancestor(g, a, b) <==> exists line :: Joins(g, line, a, b)
  {
    if Ancestor(g, a, b) {
      var line := PathOf(g, a, b);
    }
    if line :| Joins(g, line, a, b) {
      PathAscends(g, line);
    }
  }

  lemma {:induction false} AncestorIsOlder(g: Graph, a: nat, b: nat)
    requires Ancestor(g, a, b)
    ensures a <= b
    decreases b
  {
    if a != b {
      var p :| p in g[b] && p < b && Ancestor(g, a, p);
      AncestorIsOlder(g, a, p);
    }
  }

  lemma {:induction false} AncestorTransitive(g: Graph, a: nat, b: nat, c: nat)
    requires Ancestor(g, a, b) && Ancestor(g, b, c)
    ensures Ancestor(g, a, c)
    decreases c
  {
    if b == c {
    } else {
      var p :| p in g[c] && p < c && Ancestor(g, b, p);
      AncestorTransitive(g, a, b, p);
    }
  }

  /** The commits of `tip` that `without` does not have. */
  function Range(g: Graph, without: nat, tip: nat): set<nat> {
    set c | 0 <= c <= tip && Ancestor(g, c, tip) && !Ancestor(g, c, without)
  }

  /** Nothing is missing from a tip exactly when the other commit is one of its ancestors. */
  lemma RangeIsEmpty(g: Graph, without: nat, tip: nat)
    ensures |Range(g, without, tip)| == 0 <==> Ancestor(g, tip, without)
  {
    if Ancestor(g, tip, without) {
      forall c | c in Range(g, without, tip) ensures false {
        AncestorTransitive(g, c, tip, without);
      }
      assert Range(g, without, tip) == {};
    } else {
      assert tip in Range(g, without, tip);
    }
  }
}
