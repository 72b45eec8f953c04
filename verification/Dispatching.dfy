/** One uninterrupted call of `dispatch` (service_audit.py), with the sender as an oracle. */
module Dispatching {
  import opened Common
  import opened Attribution
  import opened AuditLedger
  import opened LedgerInvariant
  import opened RowOrder

  /** The n-th call of the sender, given the payload it is handed. */
  type Sender = (nat, Payload) -> Reply

  function Rounds(limit: int): nat {
    var n := if limit < 0 then 0 else limit;
    if n < 100 then n else 100
  }

  /** One round of a call: the obligation attempted, and what the sender answered. */
  datatype Try = Try(id: Key, reply: Reply)

  /** The obligation that is due first. */
  ghost predicate Due(setup: Setup, l: Ledger, now: Time, id: Key) {
    Least(setup.rank, l.events, EligibleKeys(l, now), id)
  }

  /** The n-th round: claim the first due obligation, send, and record the outcome. */
  ghost predicate Round(setup: Setup, sender: Sender, now: Time, n: nat, l: Ledger, t: Try, l1: Ledger) {
    && Due(setup, l, now, t.id)
    && t.reply == sender(n, l.events[t.id].payload)
    && l1 == SettleRow(ClaimRow(l, t.id, now), t.id, t.reply)
  }

  /** The ledgers between successive rounds. */
  ghost predicate Trace(setup: Setup, sender: Sender, now: Time, ls: seq<Ledger>, tries: seq<Try>)
    decreases |tries|
  {
    |ls| == |tries| + 1 &&
    (tries == [] ||
     var n := |tries| - 1;
     Trace(setup, sender, now, ls[..n + 1], tries[..n]) && Round(setup, sender, now, n, ls[n], tries[n], ls[n + 1]))
  }

  function Ids(tries: seq<Try>): seq<Key> {
    seq(|tries|, i requires 0 <= i < |tries| => tries[i].id)
  }

  function Confirmations(tries: seq<Try>): nat {
    if tries == [] then 0
    else Confirmations(tries[..|tries| - 1]) + Confirmation(tries[|tries| - 1])
  }

  function Confirmation(t: Try): nat {
    if Confirms(t.reply, t.id) then 1 else 0
  }

  /** A call: as many rounds as are allowed, while an obligation is due. */
  ghost predicate CallTrace(setup: Setup, sender: Sender, now: Time, rounds: nat, ls: seq<Ledger>, tries: seq<Try>) {
    && Trace(setup, sender, now, ls, tries)
    && |tries| <= rounds && (|tries| < rounds ==> EligibleKeys(ls[|tries|], now) == {})
  }

  /** What a call makes of a ledger, the obligations it attempts in order, and the number of exact receipts. */
  ghost predicate Dispatched(setup: Setup, l: Ledger, l1: Ledger, sender: Sender, now: Time, rounds: nat,
                             attempted: seq<Key>, confirmed: nat) {
    exists ls: seq<Ledger>, tries: seq<Try> ::
      && CallTrace(setup, sender, now, rounds, ls, tries) && ls[0] == l && ls[|tries|] == l1
      && attempted == Ids(tries) && confirmed == Confirmations(tries)
  }

  lemma TraceDispatches(setup: Setup, sender: Sender, now: Time, rounds: nat, ls: seq<Ledger>, tries: seq<Try>)
    requires CallTrace(setup, sender, now, rounds, ls, tries)
    ensures Dispatched(setup, ls[0], ls[|tries|], sender, now, rounds, Ids(tries), Confirmations(tries))
  {
  }

  // ---------- one round ----------

  lemma RoundKeeps(setup: Setup, sender: Sender, now: Time, n: nat, l: Ledger, t: Try, l1: Ledger)
    requires Inv(setup, l) && Round(setup, sender, now, n, l, t, l1)
    ensures Inv(setup, l1)
  {
    var mid := ClaimRow(l, t.id, now);
    RowUpdated(setup, l, mid, t.id, mid.events[t.id]);
    SettleKeeps(setup, mid, t.id, t.reply);
  }

  /** A round settles one row for this call and disturbs no other. */
  ghost predicate OneRowDone(l: Ledger, l1: Ledger, id: Key, now: Time, confirmed: bool) {
    && id in l.events && !l.events[id].delivered && l1.events.Keys == l.events.Keys
    && (forall k <- l.events :: k != id ==> l1.events[k] == l.events[k])
    && l1.events[id].created == l.events[id].created
    && l1.events[id].delivered == confirmed
    && l1.events[id].nextAttempt > now
  }

  lemma RoundEffect(setup: Setup, sender: Sender, now: Time, n: nat, l: Ledger, t: Try, l1: Ledger)
    requires Round(setup, sender, now, n, l, t, l1)
    ensures OneRowDone(l, l1, t.id, now, Confirms(t.reply, t.id))
  {
    var attempts := l.events[t.id].attempts + 1;
    DelayBounds(attempts);
    ClaimThenSettle(l, l1, now, t, Delay(attempts) as real);
  }

  lemma ClaimThenSettle(l: Ledger, l1: Ledger, now: Time, t: Try, delay: real)
    requires t.id in l.events && !l.events[t.id].delivered && l1 == SettleRow(ClaimRow(l, t.id, now), t.id, t.reply)
    requires delay == Delay(l.events[t.id].attempts + 1) as real && delay > 0.0
    ensures OneRowDone(l, l1, t.id, now, Confirms(t.reply, t.id))
  {
    var r1 := l1.events[t.id];
    assert l1.events == l.events[t.id := r1];
    assert r1.nextAttempt == now + delay;
  }

  // ---------- traces ----------

  lemma TraceGrows(setup: Setup, sender: Sender, now: Time, ls: seq<Ledger>, tries: seq<Try>, t: Try, l1: Ledger)
    requires Trace(setup, sender, now, ls, tries) && Round(setup, sender, now, |tries|, ls[|tries|], t, l1)
    ensures Trace(setup, sender, now, ls + [l1], tries + [t])
    ensures Ids(tries + [t]) == Ids(tries) + [t.id]
            && Confirmations(tries + [t]) == Confirmations(tries) + Confirmation(t)
  {
    assert (tries + [t])[..|tries|] == tries && (ls + [l1])[..|ls|] == ls;
  }

  lemma OneMore(tries: seq<Try>)
    requires tries != []
    ensures Ids(tries) == Ids(tries[..|tries| - 1]) + [tries[|tries| - 1].id]
  {
  }

  /** The outcome of a call is determined by the ledger, the sender and the clock. */
  lemma CallIsDetermined(setup: Setup, sender: Sender, now: Time, rounds: nat,
                         ls: seq<Ledger>, tries: seq<Try>, ls': seq<Ledger>, tries': seq<Try>)
    requires CallTrace(setup, sender, now, rounds, ls, tries) && CallTrace(setup, sender, now, rounds, ls', tries')
    requires ls[0] == ls'[0]
    ensures ls == ls' && tries == tries'
  {
    if |tries| <= |tries'| {
      Determined(setup, sender, now, rounds, ls, tries, ls', tries');
    } else {
      Determined(setup, sender, now, rounds, ls', tries', ls, tries);
    }
  }

  lemma Determined(setup: Setup, sender: Sender, now: Time, rounds: nat,
                   ls: seq<Ledger>, tries: seq<Try>, ls': seq<Ledger>, tries': seq<Try>)
    requires CallTrace(setup, sender, now, rounds, ls, tries) && CallTrace(setup, sender, now, rounds, ls', tries')
    requires ls[0] == ls'[0] && |tries| <= |tries'|
    ensures ls == ls' && tries == tries'
  {
    var n := |tries|;
    FirstRounds(setup, sender, now, ls', tries', n);
    assert ls'[..n + 1][0] == ls'[0];
    SameTrace(setup, sender, now, ls, tries, ls'[..n + 1], tries'[..n]);
    assert ls[n] == ls'[..n + 1][n];
    SomeDue(setup, sender, now, ls', tries', n);
    assert ls'[..n + 1] == ls' <== |tries'| == n;
    assert tries'[..n] == tries' <== |tries'| == n;
  }

  lemma {:induction false} SomeDue(setup: Setup, sender: Sender, now: Time, ls: seq<Ledger>, tries: seq<Try>, n: nat)
    requires Trace(setup, sender, now, ls, tries)
    ensures n < |tries| ==> EligibleKeys(ls[n], now) != {}
    decreases |tries|
  {
    if n + 1 < |tries| {
      var last := |tries| - 1;
      SomeDue(setup, sender, now, ls[..last + 1], tries[..last], n);
    }
  }

  /** The first rounds of a call are a trace. */
  lemma {:induction false} FirstRounds(setup: Setup, sender: Sender, now: Time, ls: seq<Ledger>, tries: seq<Try>,
                                       n: nat)
    requires Trace(setup, sender, now, ls, tries) && n <= |tries|
    ensures Trace(setup, sender, now, ls[..n + 1], tries[..n])
    decreases |tries|
  {
    if n == |tries| {
      assert ls[..n + 1] == ls && tries[..n] == tries;
    } else {
      var last := |tries| - 1;
      FirstRounds(setup, sender, now, ls[..last + 1], tries[..last], n);
      assert ls[..last + 1][..n + 1] == ls[..n + 1] && tries[..last][..n] == tries[..n];
    }
  }

  lemma {:induction false} SameTrace(setup: Setup, sender: Sender, now: Time,
                                     ls: seq<Ledger>, tries: seq<Try>, ls': seq<Ledger>, tries': seq<Try>)
    requires Trace(setup, sender, now, ls, tries) && Trace(setup, sender, now, ls', tries')
    requires ls[0] == ls'[0] && |tries| == |tries'|
    ensures ls == ls' && tries == tries'
    decreases |tries|
  {
    if tries != [] {
      var n := |tries| - 1;
      SameTrace(setup, sender, now, ls[..n + 1], tries[..n], ls'[..n + 1], tries'[..n]);
      SameEnds(ls, tries, ls', tries');
      SameRound(setup, sender, now, n, ls[n], tries[n], ls[n + 1], tries'[n], ls'[n + 1]);
    }
  }

  lemma SameEnds<L, T>(ls: seq<L>, ts: seq<T>, ls': seq<L>, ts': seq<T>)
    requires |ls| == |ts| + 1 == |ls'| == |ts'| + 1 && ts != []
    requires ls[..|ts|] == ls'[..|ts|] && ts[..|ts| - 1] == ts'[..|ts| - 1]
    ensures ls[|ts| - 1] == ls'[|ts| - 1]
    ensures ls[|ts|] == ls'[|ts|] && ts[|ts| - 1] == ts'[|ts| - 1] ==> ls == ls' && ts == ts'
  {
    var n := |ts| - 1;
    assert ls[n] == ls[..n + 1][n] && ls'[n] == ls'[..n + 1][n];
    assert ls == ls[..n + 1] + [ls[n + 1]] && ls' == ls'[..n + 1] + [ls'[n + 1]];
    assert ts == ts[..n] + [ts[n]] && ts' == ts'[..n] + [ts'[n]];
  }

  lemma SameRound(setup: Setup, sender: Sender, now: Time, n: nat, l: Ledger, t: Try, l1: Ledger, t': Try, l1': Ledger)
    requires Round(setup, sender, now, n, l, t, l1) && Round(setup, sender, now, n, l, t', l1')
    ensures t == t' && l1 == l1'
  {
    OneLeast(setup.rank, l.events, EligibleKeys(l, now), t.id, t'.id);
  }

  // ---------- order ----------

  /** After attempts ids: those are done for this call, the rest is as it was, and none of it comes first. */
  ghost predicate DoneInOrder(setup: Setup, l: Ledger, l1: Ledger, now: Time, ids: seq<Key>) {
    && SameTimes(l, l1)
    && (forall k <- l.events :: k !in ids ==> l1.events[k] == l.events[k])
    && (forall k <- ids :: k in l1.events && !Eligible(l1.events[k], now))
    && Leading(setup.rank, l.events, EligibleKeys(l, now), ids)
  }

  predicate SameTimes(l: Ledger, l1: Ledger) {
    l1.events.Keys == l.events.Keys && forall k <- l.events :: l1.events[k].created == l.events[k].created
  }

  lemma LeftToDo(setup: Setup, l: Ledger, l1: Ledger, now: Time, ids: seq<Key>)
    requires DoneInOrder(setup, l, l1, now, ids)
    ensures forall k :: k in EligibleKeys(l1, now) <==> k in EligibleKeys(l, now) && k !in ids
  {
  }

  lemma NextInOrder(setup: Setup, l: Ledger, l1: Ledger, l2: Ledger, now: Time, ids: seq<Key>, id: Key, confirmed: bool)
    requires DoneInOrder(setup, l, l1, now, ids) && Due(setup, l1, now, id)
    requires OneRowDone(l1, l2, id, now, confirmed)
    ensures DoneInOrder(setup, l, l2, now, ids + [id])
  {
    LeftToDo(setup, l, l1, now, ids);
    LeadsOn(setup, l, l1, now, ids, id);
    assert forall k :: k in ids + [id] <==> k in ids || k == id;
  }

  lemma LeadsOn(setup: Setup, l: Ledger, l1: Ledger, now: Time, ids: seq<Key>, id: Key)
    requires SameTimes(l, l1) && Leading(setup.rank, l.events, EligibleKeys(l, now), ids)
    requires forall k :: k in EligibleKeys(l1, now) <==> k in EligibleKeys(l, now) && k !in ids
    requires Due(setup, l1, now, id)
    ensures Leading(setup.rank, l.events, EligibleKeys(l, now), ids + [id])
  {
    assert forall k :: k in ids + [id] <==> k in ids || k == id;
    assert forall k <- ids, x <- [id] :: Before(setup.rank, l.events, k, x);
    Append(setup.rank, l.events, ids, [id]);
    forall x | x in EligibleKeys(l, now) && x !in ids + [id] ensures Before(setup.rank, l.events, id, x) {
      assert Before(setup.rank, l1.events, id, x);
    }
  }

  lemma InOrderOnce(setup: Setup, sender: Sender, now: Time, n: nat, l: Ledger, l1: Ledger, t: Try, l2: Ledger,
                    ids: seq<Key>)
    requires DoneInOrder(setup, l, l1, now, ids) && Round(setup, sender, now, n, l1, t, l2)
    ensures DoneInOrder(setup, l, l2, now, ids + [t.id])
  {
    RoundEffect(setup, sender, now, n, l1, t, l2);
    NextInOrder(setup, l, l1, l2, now, ids, t.id, Confirms(t.reply, t.id));
  }

  lemma NothingDone(setup: Setup, l: Ledger, now: Time)
    ensures DoneInOrder(setup, l, l, now, [])
  {
  }

  lemma {:induction false} TraceInOrder(setup: Setup, sender: Sender, now: Time, ls: seq<Ledger>, tries: seq<Try>)
    returns (ids: seq<Key>)
    requires Trace(setup, sender, now, ls, tries)
    ensures ids == Ids(tries) && DoneInOrder(setup, ls[0], ls[|tries|], now, ids)
    decreases |tries|
  {
    if tries == [] {
      ids := [];
      NothingDone(setup, ls[0], now);
    } else {
      var n := |tries| - 1;
      var before := TraceInOrder(setup, sender, now, ls[..n + 1], tries[..n]);
      InOrderOnce(setup, sender, now, n, ls[0], ls[n], tries[n], ls[n + 1], before);
      OneMore(tries);
      ids := before + [tries[n].id];
    }
  }

  /**
   * A call attempts exactly the first eligible obligations by (created, id), each once: what an
   * attempt does can neither make it eligible again nor change the order of the others.
   */
  lemma AttemptsAreTheOldest(setup: Setup, l: Ledger, l1: Ledger, sender: Sender, now: Time, rounds: nat,
                             attempted: seq<Key>, confirmed: nat)
    requires ValidSetup(setup) && Dispatched(setup, l, l1, sender, now, rounds, attempted, confirmed)
    ensures attempted == FirstKeys(setup.rank, l.events, EligibleKeys(l, now), rounds)
  {
    var ls: seq<Ledger>, tries: seq<Try> :|
      && CallTrace(setup, sender, now, rounds, ls, tries) && ls[0] == l && ls[|tries|] == l1
      && attempted == Ids(tries) && confirmed == Confirmations(tries);
    var ids := TraceInOrder(setup, sender, now, ls, tries);
    LeftToDo(setup, l, l1, now, attempted);
    FirstUnique(setup.rank, l.events, EligibleKeys(l, now), attempted, rounds);
  }

  lemma NoRowAttemptedTwice(setup: Setup, l: Ledger, l1: Ledger, sender: Sender, now: Time, rounds: nat,
                            attempted: seq<Key>, confirmed: nat)
    requires ValidSetup(setup) && Dispatched(setup, l, l1, sender, now, rounds, attempted, confirmed)
    ensures forall id <- attempted :: id in l.events && Eligible(l.events[id], now)
    ensures forall i, j :: 0 <= i < j < |attempted| ==> attempted[i] != attempted[j]
    ensures Ascending(setup.rank, l.events, attempted)
  {
    AttemptsAreTheOldest(setup, l, l1, sender, now, rounds, attempted, confirmed);
    FirstKeysProperties(setup.rank, l.events, EligibleKeys(l, now), rounds);
    AscendingKeysDiffer(setup.rank, l.events, attempted);
  }

  // ---------- what a call leaves ----------

  function NewlyDelivered(l: Ledger, l1: Ledger): set<Key> {
    set id | id in l.events && !l.events[id].delivered && id in l1.events && l1.events[id].delivered
  }

  /** The ledger after a call: the same rows, nothing undelivered again, and so many newly delivered. */
  ghost predicate Delivers(l: Ledger, l1: Ledger, n: nat) {
    && l1.events.Keys == l.events.Keys
    && (forall id <- l.events :: l.events[id].delivered ==> l1.events[id].delivered)
    && |NewlyDelivered(l, l1)| == n
  }

  lemma DeliversMore(l: Ledger, l1: Ledger, l2: Ledger, id: Key, now: Time, confirmed: bool, n: nat)
    requires Delivers(l, l1, n) && OneRowDone(l1, l2, id, now, confirmed)
    ensures Delivers(l, l2, if confirmed then n + 1 else n)
  {
    if confirmed {
      assert NewlyDelivered(l, l2) == NewlyDelivered(l, l1) + {id};
    } else {
      assert NewlyDelivered(l, l2) == NewlyDelivered(l, l1);
    }
  }

  lemma NothingDelivered(l: Ledger)
    ensures Delivers(l, l, 0)
  {
    assert NewlyDelivered(l, l) == {};
  }

  lemma DeliversOnce(setup: Setup, sender: Sender, now: Time, i: nat, l: Ledger, l1: Ledger, t: Try, l2: Ledger, n: nat)
    requires Delivers(l, l1, n) && Round(setup, sender, now, i, l1, t, l2)
    ensures Delivers(l, l2, n + Confirmation(t))
  {
    RoundEffect(setup, sender, now, i, l1, t, l2);
    DeliversMore(l, l1, l2, t.id, now, Confirms(t.reply, t.id), n);
  }

  lemma {:induction false} TraceDelivers(setup: Setup, sender: Sender, now: Time, ls: seq<Ledger>, tries: seq<Try>)
    requires Trace(setup, sender, now, ls, tries)
    ensures Delivers(ls[0], ls[|tries|], Confirmations(tries))
    decreases |tries|
  {
    if tries == [] {
      NothingDelivered(ls[0]);
    } else {
      var n := |tries| - 1;
      TraceDelivers(setup, sender, now, ls[..n + 1], tries[..n]);
      DeliversOnce(setup, sender, now, n, ls[0], ls[n], tries[n], ls[n + 1], Confirmations(tries[..n]));
    }
  }

  /** The count a call returns is the number of rows it newly delivered; no delivery is undone. */
  lemma DispatchDelivers(setup: Setup, l: Ledger, l1: Ledger, sender: Sender, now: Time, rounds: nat,
                         attempted: seq<Key>, confirmed: nat)
    requires Dispatched(setup, l, l1, sender, now, rounds, attempted, confirmed)
    ensures Delivers(l, l1, confirmed)
  {
    var ls: seq<Ledger>, tries: seq<Try> :|
      && CallTrace(setup, sender, now, rounds, ls, tries) && ls[0] == l && ls[|tries|] == l1
      && attempted == Ids(tries) && confirmed == Confirmations(tries);
    TraceDelivers(setup, sender, now, ls, tries);
  }

  lemma {:induction false} TraceKeeps(setup: Setup, sender: Sender, now: Time, ls: seq<Ledger>, tries: seq<Try>)
    requires Trace(setup, sender, now, ls, tries) && Inv(setup, ls[0])
    ensures Inv(setup, ls[|tries|])
    decreases |tries|
  {
    if tries != [] {
      var n := |tries| - 1;
      TraceKeeps(setup, sender, now, ls[..n + 1], tries[..n]);
      RoundKeeps(setup, sender, now, n, ls[n], tries[n], ls[n + 1]);
    }
  }

  /** A call keeps the ledger invariant, whatever the sender answers. */
  lemma DispatchKeeps(setup: Setup, l: Ledger, l1: Ledger, sender: Sender, now: Time, rounds: nat,
                      attempted: seq<Key>, confirmed: nat)
    requires Dispatched(setup, l, l1, sender, now, rounds, attempted, confirmed) && Inv(setup, l)
    ensures Inv(setup, l1)
  {
    var ls: seq<Ledger>, tries: seq<Try> :|
      && CallTrace(setup, sender, now, rounds, ls, tries) && ls[0] == l && ls[|tries|] == l1
      && attempted == Ids(tries) && confirmed == Confirmations(tries);
    TraceKeeps(setup, sender, now, ls, tries);
  }
}
