/**
 * Whole runs of the desktop target resolver, under every interleaving of its callers, lookups and
 * deadlines.
 */
module TargetRuns {
  import opened Common
  import opened DesktopTarget

  // ---------- single flight ----------

  function LiveLookups(s: Resolver): set<nat> {
    set l <- s.lookups.Keys | Live(s, l)
  }

  lemma {:induction false} LiveAreTracked(s: Resolver, live: set<nat>)
    requires Tracked(s) && live <= LiveLookups(s)
    ensures |live| <= |set l <- live :: s.lookups[l].binding|
  {
    if live == {} {
    } else {
      var l :| l in live;
      LiveAreTracked(s, live - {l});
      var all, rest := set k <- live :: s.lookups[k].binding, set k <- live - {l} :: s.lookups[k].binding;
      assert Live(s, l);
      forall k | k in live - {l} ensures s.lookups[k].binding != s.lookups[l].binding {
        assert Live(s, k);
      }
      assert all == rest + {s.lookups[l].binding};
    }
  }

  /**
   * In every state of every run at most one live lookup exists per binding, at most `max` exist in
   * all, and a live lookup is the one a caller with its binding would join.
   */
  lemma SingleFlight(max: nat, events: seq<Event>)
    ensures var s := Run(max, events);
            && (forall l, k :: Live(s, l) && Live(s, k) && s.lookups[l].binding == s.lookups[k].binding ==> l == k)
            && |LiveLookups(s)| <= max
  {
    var s := Run(max, events);
    RunKeepsInv(max, events);
    forall l, k | Live(s, l) && Live(s, k) && s.lookups[l].binding == s.lookups[k].binding ensures l == k {
    }
    LiveAreTracked(s, LiveLookups(s));
    var bindings := set l <- LiveLookups(s) :: s.lookups[l].binding;
    assert bindings <= s.inFlight.Keys;
    SubsetSize(bindings, s.inFlight.Keys);
    assert |s.inFlight.Keys| == |s.inFlight|;
  }

  lemma {:induction false} SubsetSize<T>(a: set<T>, b: set<T>)
    requires a <= b
    ensures |a| <= |b|
  {
    if a != {} {
      var x :| x in a;
      SubsetSize(a - {x}, b - {x});
    }
  }

  /** A decision at most adds one racing lookup. */
  lemma AuthorizeAdds(s: Resolver, max: nat, r: nat, decision: Result<Decision, Failure>)
    requires Inv(s, max)
    ensures var t := AuthorizeStep(s, max, r, decision);
            || t.lookups == s.lookups
            || (s.started !in s.lookups && s.started in t.lookups && t.lookups[s.started].phase.Racing?
                && t.lookups == s.lookups[s.started := t.lookups[s.started]])
  {
    if r in s.requests && s.requests[r].Authorizing? && decision.Success? {
      var t := JoinStep(s, max, r, s.requests[r].caller, decision.value);
      assert t.lookups == s.lookups
             || t.lookups
                == s.lookups[s.started := Lookup(Binding(s.requests[r].caller.route, decision.value), Racing)];
    }
  }

  lemma RaceGrows(s: Resolver, l: nat, outcome: Outcome)
    ensures Grows(s, RaceStep(s, l, outcome))
  {
  }

  lemma CleanStepGrows(s: Resolver, l: nat)
    ensures Grows(s, CleanStep(s, l))
  {
  }

  lemma SettleGrows(s: Resolver, l: nat)
    ensures Grows(s, SettleStep(s, l))
  {
  }

  lemma StepGrows(s: Resolver, max: nat, e: Event)
    requires Inv(s, max)
    ensures Grows(s, Step(s, max, e))
  {
    match e
    case Authorize(r, decision) => AuthorizeAdds(s, max, r, decision);
    case Read(l, session) => RaceGrows(s, l, ReadOutcome(session));
    case Expire(l) => RaceGrows(s, l, Failure(LookupTimeout));
    case Clean(l) => CleanStepGrows(s, l);
    case Settle(l) => SettleGrows(s, l);
    case _ => assert Step(s, max, e).lookups == s.lookups;
  }

  lemma GrowsTransitive(s: Resolver, t: Resolver, u: Resolver)
    requires Grows(s, t) && Grows(t, u)
    ensures Grows(s, u)
  {
    forall l | l in s.lookups ensures GrewAt(s, u, l) {
      assert GrewAt(s, t, l) && GrewAt(t, u, l);
    }
  }

  /** A lookup's outcome is fixed by the first answer: later reads, deadlines and callers leave it. */
  lemma {:induction false} OutcomesAreShared(max: nat, events: seq<Event>, n: nat)
    requires n <= |events|
    ensures Grows(Run(max, events[..n]), Run(max, events))
    decreases |events| - n
  {
    if n == |events| {
      assert events[..n] == events;
    } else {
      OutcomesAreShared(max, events, n + 1);
      RunKeepsInv(max, events[..n]);
      StepGrows(Run(max, events[..n]), max, events[n]);
      assert events[..n + 1][..n] == events[..n];
      GrowsTransitive(Run(max, events[..n]), Run(max, events[..n + 1]), Run(max, events));
    }
  }

  // ---------- where a returned port comes from ----------

  /** At step i the call was authorized for this binding, and joined its lookup while it was live. */
  predicate JoinedAt(max: nat, events: seq<Event>, i: nat, r: nat, caller: Caller, binding: Binding, l: nat)
    requires i < |events|
  {
    && events[i] == Authorize(r, Success(binding.decision))
    && var s := Run(max, events[..i + 1]);
       r in s.requests && s.requests[r] == Waiting(caller, binding, l) && Live(s, l)
  }

  /** At step j the call was authorized again, for the same binding, its lookup having succeeded. */
  predicate RecheckedAt(max: nat, events: seq<Event>, j: nat, r: nat, caller: Caller, binding: Binding, l: nat,
                        port: int)
    requires j < |events|
  {
    && events[j] == Authorize(r, Success(binding.decision))
    && var s := Run(max, events[..j]);
       r in s.requests && s.requests[r] == Rechecking(caller, binding, l, port)
  }

  /** At step k the target answered this lookup, still racing its deadline, with this port. */
  predicate ReadAt(max: nat, events: seq<Event>, k: nat, l: nat, port: int)
    requires k < |events|
  {
    && events[k].Read? && events[k].lookup == l && ReadOutcome(events[k].session) == Success(port)
    && var s := Run(max, events[..k]); l in s.lookups && s.lookups[l].phase.Racing?
  }

  predicate WasJoined(max: nat, events: seq<Event>, n: nat, r: nat, caller: Caller, binding: Binding, l: nat)
    requires n <= |events|
  {
    exists i :: 0 <= i < n && JoinedAt(max, events, i, r, caller, binding, l)
  }

  predicate WasRechecked(max: nat, events: seq<Event>, r: nat, caller: Caller, binding: Binding, l: nat, port: int) {
    exists j :: 0 <= j < |events| && RecheckedAt(max, events, j, r, caller, binding, l, port)
        && WasJoined(max, events, j, r, caller, binding, l)
  }

  predicate WasValidated(events: seq<Event>, r: nat) {
    exists v :: 0 <= v < |events| && events[v] == ValidateShare(r, true)
  }

  /** What must have happened to a call in its present phase. */
  predicate Story(max: nat, events: seq<Event>, r: nat, request: Request) {
    match request
    case Waiting(caller, binding, l) =>
        caller.route == binding.route && WasJoined(max, events, |events|, r, caller, binding, l)
    case Rechecking(caller, binding, l, port) =>
        caller.route == binding.route && WasJoined(max, events, |events|, r, caller, binding, l)
    case Validating(caller, binding, l, port) => WasRechecked(max, events, r, caller, binding, l, port)
    case Resolved(caller, binding, l, port) =>
      WasRechecked(max, events, r, caller, binding, l, port) && (caller.shared ==> WasValidated(events, r))
    case _ => true
  }

  predicate WasRead(max: nat, events: seq<Event>, l: nat, port: int) {
    exists k :: 0 <= k < |events| && ReadAt(max, events, k, l, port)
  }

  lemma JoinedStaysAt(max: nat, events: seq<Event>, n: nat, r: nat, caller: Caller, binding: Binding, l: nat)
    requires events != [] && n <= |events| - 1 && WasJoined(max, events[..|events| - 1], n, r, caller, binding, l)
    ensures WasJoined(max, events, n, r, caller, binding, l) && WasJoined(max, events, |events|, r, caller, binding, l)
  {
    var before := events[..|events| - 1];
    var i :| 0 <= i < n && JoinedAt(max, before, i, r, caller, binding, l);
    assert before[..i + 1] == events[..i + 1];
    assert JoinedAt(max, events, i, r, caller, binding, l);
  }

  lemma RecheckedStays(max: nat, events: seq<Event>, r: nat, caller: Caller, binding: Binding, l: nat, port: int)
    requires events != [] && WasRechecked(max, events[..|events| - 1], r, caller, binding, l, port)
    ensures WasRechecked(max, events, r, caller, binding, l, port)
  {
    var before := events[..|events| - 1];
    var j :| 0 <= j < |before| && RecheckedAt(max, before, j, r, caller, binding, l, port)
        && WasJoined(max, before, j, r, caller, binding, l);
    assert before[..j] == events[..j];
    JoinedStaysAt(max, events, j, r, caller, binding, l);
    assert RecheckedAt(max, events, j, r, caller, binding, l, port);
  }

  lemma StoryStays(max: nat, events: seq<Event>, r: nat, request: Request)
    requires events != [] && Story(max, events[..|events| - 1], r, request)
    ensures Story(max, events, r, request)
  {
    match request
    case Waiting(caller, binding, l) => JoinedStaysAt(max, events, |events| - 1, r, caller, binding, l);
    case Rechecking(caller, binding, l, _) => JoinedStaysAt(max, events, |events| - 1, r, caller, binding, l);
    case Validating(caller, binding, l, port) => RecheckedStays(max, events, r, caller, binding, l, port);
    case Resolved(caller, binding, l, port) =>
      RecheckedStays(max, events, r, caller, binding, l, port);
      if caller.shared {
        var before := events[..|events| - 1];
        var v :| 0 <= v < |before| && before[v] == ValidateShare(r, true);
        assert events[v] == ValidateShare(r, true);
      }
    case _ =>
  }

  /** A first decision that leaves the call waiting joined a live lookup. */
  lemma JoinsLive(s: Resolver, max: nat, r: nat, caller: Caller, decision: Decision)
    requires Inv(s, max)
    ensures var t := JoinStep(s, max, r, caller, decision);
            t.requests[r].Waiting? ==>
              var l := t.requests[r].lookup;
              t.requests[r] == Waiting(caller, Binding(caller.route, decision), l) && Live(t, l)
  {
  }

  lemma FirstDecisionTells(max: nat, events: seq<Event>, n: nat, r: nat, s: Resolver, t: Resolver, decision: Decision)
    requires |events| == n + 1 && events[n] == Authorize(r, Success(decision)) && s == Run(max, events[..n])
             && t == Run(max, events)
    requires Inv(s, max) && r in s.requests && s.requests[r].Authorizing?
    ensures r in t.requests && Story(max, events, r, t.requests[r])
  {
    JoinsLive(s, max, r, s.requests[r].caller, decision);
    assert events[..n + 1] == events;
    if t.requests[r].Waiting? {
      assert JoinedAt(max, events, n, r, t.requests[r].caller, t.requests[r].binding, t.requests[r].lookup);
    }
  }

  lemma SecondDecisionTells(max: nat, events: seq<Event>, n: nat, r: nat, s: Resolver, t: Resolver, decision: Decision)
    requires |events| == n + 1 && events[n] == Authorize(r, Success(decision)) && s == Run(max, events[..n])
             && t == Run(max, events)
    requires r in s.requests && s.requests[r].Rechecking? && Story(max, events[..n], r, s.requests[r])
    ensures r in t.requests && Story(max, events, r, t.requests[r])
  {
    var Rechecking(caller, binding, l, port) := s.requests[r];
    if Binding(caller.route, decision) == binding {
      JoinedStaysAt(max, events, n, r, caller, binding, l);
      assert RecheckedAt(max, events, n, r, caller, binding, l, port);
    }
  }

  lemma AuthorizeTells(max: nat, events: seq<Event>, r: nat)
    requires events != [] && events[|events| - 1].Authorize? && events[|events| - 1].request == r
    requires var s := Run(max, events[..|events| - 1]);
             Inv(s, max) && r in s.requests && Story(max, events[..|events| - 1], r, s.requests[r])
    ensures var t := Run(max, events); r in t.requests && Story(max, events, r, t.requests[r])
  {
    var n := |events| - 1;
    var s, t := Run(max, events[..n]), Run(max, events);
    var decision := events[n].decision;
    if decision.Success? && s.requests[r].Authorizing? {
      FirstDecisionTells(max, events, n, r, s, t, decision.value);
    } else if decision.Success? && s.requests[r].Rechecking? {
      SecondDecisionTells(max, events, n, r, s, t, decision.value);
    } else if decision.Failure? && (s.requests[r].Authorizing? || s.requests[r].Rechecking?) {
    } else {
      StoryStays(max, events, r, s.requests[r]);
    }
  }

  /** How an event that is not a decision about a call can move it. */
  predicate Moved(e: Event, r: nat, from: Request, to: Request) {
    || to == from || to.Rejected?
    || (from.Waiting? && to.Rechecking? && to.caller == from.caller && to.binding == from.binding
       && to.lookup == from.lookup)
    || (from.Validating? && to == Resolved(from.caller, from.binding, from.lookup, from.port)
       && e == ValidateShare(r, true))
  }

  lemma OthersMove(s: Resolver, max: nat, e: Event, r: nat)
    requires !(e.Authorize? && e.request == r)
    ensures var t := Step(s, max, e);
            r in t.requests ==>
              if r in s.requests then Moved(e, r, s.requests[r], t.requests[r])
              else t.requests[r].Authorizing? || t.requests[r].Rejected?
  {
    match e
    case Authorize(x, decision) =>
      assert forall t ::
             t == AuthorizeStep(s, max, x, decision) && r in t.requests ==>
                 r in s.requests && t.requests[r] == s.requests[r];
    case _ =>
  }

  lemma OthersTell(max: nat, events: seq<Event>, r: nat)
    requires events != [] && !(events[|events| - 1].Authorize? && events[|events| - 1].request == r)
    requires var s := Run(max, events[..|events| - 1]);
             r in s.requests ==> Story(max, events[..|events| - 1], r, s.requests[r])
    ensures var t := Run(max, events); r in t.requests ==> Story(max, events, r, t.requests[r])
  {
    var n := |events| - 1;
    var s := Run(max, events[..n]);
    OthersMove(s, max, events[n], r);
    if r in s.requests {
      StoryStays(max, events, r, s.requests[r]);
    }
    if events[n] == ValidateShare(r, true) {
      assert WasValidated(events, r);
    }
  }

  lemma {:induction false} CallsTell(max: nat, events: seq<Event>, r: nat)
    requires r in Run(max, events).requests
    ensures Story(max, events, r, Run(max, events).requests[r])
  {
    if events == [] {
    } else {
      var before := events[..|events| - 1];
      RunKeepsInv(max, before);
      if r in Run(max, before).requests {
        CallsTell(max, before, r);
      }
      if events[|events| - 1].Authorize? && events[|events| - 1].request == r && r in Run(max, before).requests {
        AuthorizeTells(max, events, r);
      } else if !(events[|events| - 1].Authorize? && events[|events| - 1].request == r) {
        OthersTell(max, events, r);
      }
    }
  }

  lemma {:induction false} PortsAreRead(max: nat, events: seq<Event>, l: nat, port: int)
    requires HasOutcome(Run(max, events), l, Success(port))
    ensures WasRead(max, events, l, port)
  {
    if events == [] {
    } else {
      var n := |events| - 1;
      var s := Run(max, events[..n]);
      RunKeepsInv(max, events[..n]);
      if HasOutcome(s, l, Success(port)) {
        PortsAreRead(max, events[..n], l, port);
        var k :| 0 <= k < n && ReadAt(max, events[..n], k, l, port);
        assert events[..n][..k] == events[..k];
        assert ReadAt(max, events, k, l, port);
      } else {
        NewOutcome(s, max, events[n], l, port);
        assert ReadAt(max, events, n, l, port);
      }
    }
  }

  lemma NewOutcome(s: Resolver, max: nat, e: Event, l: nat, port: int)
    requires Inv(s, max) && !HasOutcome(s, l, Success(port)) && HasOutcome(Step(s, max, e), l, Success(port))
    ensures e.Read? && e.lookup == l && ReadOutcome(e.session) == Success(port) && l in s.lookups
            && s.lookups[l].phase.Racing?
  {
    match e
    case Authorize(r, decision) => AuthorizeAdds(s, max, r, decision);
    case Read(x, session) => RaceOutcome(s, x, ReadOutcome(session), l, port);
    case Expire(x) => RaceOutcome(s, x, Failure(LookupTimeout), l, port);
    case Clean(x) => LaterOutcome(s, x, l, port);
    case Settle(x) => LaterOutcome(s, x, l, port);
    case _ =>
  }

  lemma RaceOutcome(s: Resolver, x: nat, outcome: Outcome, l: nat, port: int)
    requires !HasOutcome(s, l, Success(port)) && HasOutcome(RaceStep(s, x, outcome), l, Success(port))
    ensures x == l && outcome == Success(port) && l in s.lookups && s.lookups[l].phase.Racing?
  {
  }

  lemma LaterOutcome(s: Resolver, x: nat, l: nat, port: int)
    ensures HasOutcome(CleanStep(s, x), l, Success(port)) ==> HasOutcome(s, l, Success(port))
    ensures HasOutcome(SettleStep(s, x), l, Success(port)) ==> HasOutcome(s, l, Success(port))
  {
  }

  /**
   * A returned port, in every run: the call was authorized under the grant it was issued for, joined a
   * lookup of its own binding before that lookup's promise settled, and was authorized again for the
   * very same binding afterwards. The port is in range and is what the target answered to that lookup
   * before its deadline; a call that needs a share came with one, and a shared session was validated.
   */
  lemma ReturnedPortsAreFresh(max: nat, events: seq<Event>, r: nat)
    requires r in Run(max, events).requests && Run(max, events).requests[r].Resolved?
    ensures var Resolved(caller, binding, l, port) := Run(max, events).requests[r];
            && Serves(caller, binding) && 1 <= port <= 65535
            && WasRechecked(max, events, r, caller, binding, l, port) && WasRead(max, events, l, port)
            && (caller.shared ==> WasValidated(events, r))
  {
    CallsTell(max, events, r);
    RunKeepsInv(max, events);
    var s := Run(max, events);
    assert Joined(s, s.requests[r]);
    PortsAreRead(max, events, s.requests[r].lookup, s.requests[r].port);
  }

  /**
   * Calls share by key: whatever their grants, and with or without a share object, a call whose route and
   * decision are those of a live lookup joins it and starts nothing, even when the map is full.
   */
  lemma SameKeySharesTheLookup(max: nat, events: seq<Event>, r: nat, caller: Caller, decision: Decision, l: nat)
    requires var s := Run(max, events); Live(s, l) && s.lookups[l].binding == Binding(caller.route, decision)
    ensures var s := Run(max, events);
            var t := JoinStep(s, max, r, caller, decision);
            && t.lookups == s.lookups && t.inFlight == s.inFlight
            && t.requests[r] == if caller.grantRevision.Some? && decision.grantRevision != caller.grantRevision.value
                                then Rejected(GrantChanged) else Waiting(caller, Binding(caller.route, decision), l)
  {
    RunKeepsInv(max, events);
  }
}
