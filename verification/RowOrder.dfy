/** Rows in the order of SELECT ... ORDER BY created, id: how to recognise a listing and its first rows. */
module RowOrder {
  import opened Common
  import opened AuditLedger

  lemma LeastIsFirst(rank: Key -> nat, table: map<Key, Row>, keys: set<Key>, m: Key)
    requires Injective(rank) && keys <= table.Keys && Least(rank, table, keys, m)
    ensures Ordered(rank, table, keys) != [] && Ordered(rank, table, keys)[0] == m
  {
    var r := Ordered(rank, table, keys);
    var i :| 0 <= i < |r| && r[i] == m;
    if i > 0 {
      assert r[0] in keys && Before(rank, table, r[0], m);
    }
  }

  /** An ascending listing starts with its least row. */
  lemma HeadIsLeast(rank: Key -> nat, table: map<Key, Row>, listed: seq<Key>, keys: set<Key>)
    requires listed != [] && keys <= table.Keys && (forall k :: k in listed <==> k in keys)
             && Ascending(rank, table, listed)
    ensures Least(rank, table, keys, listed[0])
  {
    forall k | k in keys && k != listed[0] ensures Before(rank, table, listed[0], k) {
      var i :| 0 <= i < |listed| && listed[i] == k;
    }
  }

  lemma OneLeast(rank: Key -> nat, table: map<Key, Row>, keys: set<Key>, a: Key, b: Key)
    requires keys <= table.Keys && Least(rank, table, keys, a) && Least(rank, table, keys, b)
    ensures a == b
  {
  }

  lemma TailMembers(rank: Key -> nat, table: map<Key, Row>, listed: seq<Key>, keys: set<Key>)
    requires listed != [] && keys <= table.Keys && (forall k :: k in listed <==> k in keys)
             && Ascending(rank, table, listed)
    ensures forall k :: k in listed[1..] <==> k in keys - {listed[0]}
    ensures Ascending(rank, table, listed[1..])
  {
    forall k | k in keys - {listed[0]} ensures k in listed[1..] {
      var i :| 0 <= i < |listed| && listed[i] == k;
      assert listed[1..][i - 1] == k;
    }
    forall k | k in listed[1..] ensures k in keys - {listed[0]} {
      var i :| 0 <= i < |listed[1..]| && listed[1..][i] == k;
      assert Before(rank, table, listed[0], listed[i + 1]);
    }
  }

  /** Two ascending listings of the same rows agree. */
  lemma {:induction false} AscendingUnique(rank: Key -> nat, table: map<Key, Row>, keys: set<Key>, a: seq<Key>,
                                           b: seq<Key>)
    requires keys <= table.Keys && (forall k :: k in a <==> k in keys) && (forall k :: k in b <==> k in keys)
    requires Ascending(rank, table, a) && Ascending(rank, table, b)
    ensures a == b
    decreases |a|
  {
    if a != [] || b != [] {
      assert (a + b)[0] in a + b;
      var k :| k in a + b;
      assert k in a && k in b;
      HeadIsLeast(rank, table, a, keys);
      HeadIsLeast(rank, table, b, keys);
      OneLeast(rank, table, keys, a[0], b[0]);
      TailMembers(rank, table, a, keys);
      TailMembers(rank, table, b, keys);
      AscendingUnique(rank, table, keys - {a[0]}, a[1..], b[1..]);
    }
  }

  lemma OrderedUnique(rank: Key -> nat, table: map<Key, Row>, keys: set<Key>, listed: seq<Key>)
    requires Injective(rank) && keys <= table.Keys
    requires (forall k :: k in listed <==> k in keys) && Ascending(rank, table, listed)
    ensures Ordered(rank, table, keys) == listed
  {
    AscendingUnique(rank, table, keys, Ordered(rank, table, keys), listed);
  }

  /** Rows listed in order, each before any row not listed, and all rows if they are fewer than the limit. */
  ghost predicate Leading(rank: Key -> nat, table: map<Key, Row>, all: set<Key>, keys: seq<Key>)
    requires all <= table.Keys
  {
    && (forall k <- keys :: k in all) && Ascending(rank, table, keys)
    && (forall k <- keys, x <- all :: x !in keys ==> Before(rank, table, k, x))
  }

  lemma Append(rank: Key -> nat, table: map<Key, Row>, keys: seq<Key>, rest: seq<Key>)
    requires (forall k <- keys :: k in table) && (forall k <- rest :: k in table)
    requires Ascending(rank, table, keys) && Ascending(rank, table, rest)
    requires forall k <- keys, x <- rest :: Before(rank, table, k, x)
    ensures Ascending(rank, table, keys + rest)
  {
    var listed := keys + rest;
    forall i, j | 0 <= i < j < |listed| ensures Before(rank, table, listed[i], listed[j]) {
      if i < |keys| && j >= |keys| { assert listed[j] in rest && listed[i] in keys; }
    }
  }

  /** Such rows are the first ones. */
  lemma FirstUnique(rank: Key -> nat, table: map<Key, Row>, all: set<Key>, keys: seq<Key>, limit: nat)
    requires Injective(rank) && all <= table.Keys && |keys| <= limit && Leading(rank, table, all, keys)
    requires |keys| < limit ==> forall x <- all :: x in keys
    ensures FirstKeys(rank, table, all, limit) == keys
  {
    var left := set x | x in all && x !in keys;
    var rest := Ordered(rank, table, left);
    Append(rank, table, keys, rest);
    OrderedUnique(rank, table, all, keys + rest);
    if |keys| < limit {
      assert left == {};
      assert keys + rest == keys;
    }
  }
}
