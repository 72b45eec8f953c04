/**
 * The desktop target resolver (apps/server/src/desktop-target.ts) as the steps its promises take
 * between two awaits, in any order the event loop may choose.
 */
module DesktopTarget {
  import opened Common
  import opened Endpoints

  datatype Failure =
    | BrokeredShareRequired | Denied | GrantChanged | LookupBusy | LookupTimeout | ReadFailed | NotRunning
    | BindingChanged | ShareRefused

  /** The hashed part of a call: who asks, from which deployment, for which desktop and under which share. */
  datatype Route = Route(identity: string, slug: string, thread: string, share: Option<string>)

  /**
   * What one call fixes. Whether it comes with a share, the grant it was issued under and whether its
   * desktop needs a share are its own: calls that differ in them alone join one lookup.
   */
  datatype Caller = Caller(route: Route, shared: bool, grantRevision: Option<string>, capabilityRequired: bool)

  datatype Decision = Decision(owner: string, boundary: string, resource: string, policyRevision: string,
                               grantRevision: string, generation: string)

  /** What bindingKey digests; SHA-256 is taken as injective. */
  datatype Binding = Binding(route: Route, decision: Decision)

  /** A port field: missing, zero, empty or false, or else with the number it converts to, if any. */
  datatype Candidate = Falsy | Value(number: Option<real>)

  /** The port fields in the order they are consulted, and the text of the endpoint, empty if there is none. */
  datatype Session = Session(fields: seq<Candidate>, endpoint: string)

  function FirstTruthy(fields: seq<Candidate>): (n: nat)
    ensures n <= |fields| && (forall i :: 0 <= i < n ==> fields[i].Falsy?)
    ensures n < |fields| ==> fields[n].Value?
  {
    if fields == [] || fields[0].Value? then 0
    else
      var n := FirstTruthy(fields[1..]);
      assert forall i :: 1 <= i < n + 1 ==> fields[i] == fields[1..][i - 1];
      n + 1
  }

  /** The n-th candidate decides, as all before it are falsy; the endpoint comes last. */
  predicate Decides(session: Session, n: nat) {
    n <= |session.fields| && (forall i :: 0 <= i < n ==> session.fields[i].Falsy?)
    && (n < |session.fields| ==> session.fields[n].Value?)
  }

  predicate Gives(session: Session, n: nat, port: int)
    requires n <= |session.fields|
  {
    1 <= port <= 65535
    && if n < |session.fields| then session.fields[n] == Value(Some(port as real))
       else EndpointPort(session.endpoint) == port
  }

  /** The first candidate that is not falsy decides, even if it is no port and a later one is. */
  function SessionPort(session: Session): (r: Result<int, Failure>)
    ensures r.Success? || r == Failure(NotRunning)
    ensures forall n, port :: Decides(session, n) ==> (Gives(session, n, port) <==> r == Success(port))
  {
    var n := FirstTruthy(session.fields);
    var number := if n < |session.fields| then session.fields[n].number
        else Some(EndpointPort(session.endpoint) as real);
    assert forall k :: Decides(session, k) ==> k == n;
    if number.Some? && number.value == number.value.Floor as real && 1 <= number.value.Floor <= 65535
    then Success(number.value.Floor)
    else Failure(NotRunning)
  }

  type Outcome = Result<int, Failure>

  /**
   * A lookup is Racing until its target or its deadline answers, Raced until its cleanup has run, and
   * Cleaned until the promise its callers share settles.
   */
  datatype Phase = Racing | Raced(outcome: Outcome) | Cleaned(outcome: Outcome) | Settled(outcome: Outcome)

  datatype Lookup = Lookup(binding: Binding, phase: Phase)

  datatype Request =
    | Authorizing(caller: Caller)
    | Waiting(caller: Caller, binding: Binding, lookup: nat)
    | Rechecking(caller: Caller, binding: Binding, lookup: nat, port: int)
    | Validating(caller: Caller, binding: Binding, lookup: nat, port: int)
    | Resolved(caller: Caller, binding: Binding, lookup: nat, port: int)
    | Rejected(failure: Failure)

  datatype Resolver = Resolver(inFlight: map<Binding, nat>, lookups: map<nat, Lookup>, started: nat,
                               requests: map<nat, Request>)

  const EMPTY := Resolver(map[], map[], 0, map[])

  datatype Event =
    | Call(request: nat, caller: Caller)
    | Authorize(request: nat, decision: Result<Decision, Failure>)
    | Read(lookup: nat, session: Result<Session, Failure>)
    | Expire(lookup: nat)
    | Clean(lookup: nat)
    | Settle(lookup: nat)
    | Resume(request: nat)
    | ValidateShare(request: nat, valid: bool)

  /** A map of this size has reached the configured bound, taken between 1 and 256. */
  predicate Full(size: nat, configured: real) {
    (size >= 1 && size as real >= configured) || size >= 256
  }

  /** The bound as a size: 64 unless another is configured. */
  function MaxPending(configured: Option<real>): (n: nat)
    ensures 1 <= n <= 256
    ensures configured.None? || configured.value == 0.0 ==> n == 64
    ensures configured.Some? && configured.value != 0.0 ==>
              forall size: nat :: Full(size, configured.value) <==> size >= n
  {
    var wanted := if configured.None? || configured.value == 0.0 then 64.0 else configured.value;
    var bound := if wanted < 1.0 then 1.0 else if wanted > 256.0 then 256.0 else wanted;
    -((-bound).Floor)
  }

  // ---------- steps ----------

  function WithRequest(s: Resolver, r: nat, request: Request): Resolver {
    s.(requests := s.requests[r := request])
  }

  function WithPhase(s: Resolver, l: nat, phase: Phase): Resolver
    requires l in s.lookups
  {
    s.(lookups := s.lookups[l := s.lookups[l].(phase := phase)])
  }

  function CallStep(s: Resolver, r: nat, caller: Caller): Resolver {
    if r in s.requests then s
    else WithRequest(s, r, if caller.capabilityRequired && !caller.shared then Rejected(BrokeredShareRequired)
                           else Authorizing(caller))
  }

  /** A new lookup under a free binding. */
  function Started(s: Resolver, binding: Binding): Resolver {
    s.(inFlight := s.inFlight[binding := s.started],
       lookups := s.lookups[s.started := Lookup(binding, Racing)], started := s.started + 1)
  }

  /** The first decision fixes the binding, and joins its unfinished lookup or starts one. */
  function JoinStep(s: Resolver, max: nat, r: nat, caller: Caller, decision: Decision): Resolver {
    var binding := Binding(caller.route, decision);
    if caller.grantRevision.Some? && decision.grantRevision != caller.grantRevision.value
    then WithRequest(s, r, Rejected(GrantChanged))
    else if binding in s.inFlight then WithRequest(s, r, Waiting(caller, binding, s.inFlight[binding]))
    else if |s.inFlight| >= max then WithRequest(s, r, Rejected(LookupBusy))
    else WithRequest(Started(s, binding), r, Waiting(caller, binding, s.started))
  }

  /** The second decision must give the same binding. */
  function RecheckStep(s: Resolver, r: nat, request: Request, decision: Decision): Resolver
    requires request.Rechecking?
  {
    var Rechecking(caller, binding, lookup, port) := request;
    WithRequest(s, r,
                if Binding(caller.route, decision) != binding then Rejected(BindingChanged)
                else if caller.shared then Validating(caller, binding, lookup, port)
                else Resolved(caller, binding, lookup, port))
  }

  function AuthorizeStep(s: Resolver, max: nat, r: nat, decision: Result<Decision, Failure>): Resolver {
    if r !in s.requests then s
    else
      match s.requests[r]
      case Authorizing(caller) =>
        if decision.Failure? then WithRequest(s, r, Rejected(decision.error))
            else JoinStep(s, max, r, caller, decision.value)
      case Rechecking(_, _, _, _) =>
        if decision.Failure? then WithRequest(s, r, Rejected(decision.error))
            else RecheckStep(s, r, s.requests[r], decision.value)
      case _ => s
  }

  /** The first of target and deadline to answer decides the race; the other is ignored. */
  function RaceStep(s: Resolver, l: nat, outcome: Outcome): Resolver {
    if l in s.lookups && s.lookups[l].phase.Racing? then WithPhase(s, l, Raced(outcome)) else s
  }

  function ReadOutcome(session: Result<Session, Failure>): Outcome {
    if session.Failure? then Failure(session.error) else SessionPort(session.value)
  }

  /** The cleanup deletes by key, whatever the key holds. */
  function CleanStep(s: Resolver, l: nat): Resolver {
    if l in s.lookups && s.lookups[l].phase.Raced?
    then WithPhase(s, l, Cleaned(s.lookups[l].phase.outcome)).(inFlight := s.inFlight - {s.lookups[l].binding})
    else s
  }

  function SettleStep(s: Resolver, l: nat): Resolver {
    if l in s.lookups && s.lookups[l].phase.Cleaned? then WithPhase(s, l, Settled(s.lookups[l].phase.outcome)) else s
  }

  /** A caller goes on once the promise it shares has settled. */
  function ResumeStep(s: Resolver, r: nat): Resolver {
    if r in s.requests && s.requests[r].Waiting? && s.requests[r].lookup in s.lookups
       && s.lookups[s.requests[r].lookup].phase.Settled?
    then
      var Waiting(caller, binding, lookup) := s.requests[r];
      var outcome := s.lookups[lookup].phase.outcome;
      WithRequest(s, r, if outcome.Failure? then Rejected(outcome.error)
          else Rechecking(caller, binding, lookup, outcome.value))
    else s
  }

  function ValidateStep(s: Resolver, r: nat, valid: bool): Resolver {
    if r in s.requests && s.requests[r].Validating?
    then
      var Validating(caller, binding, lookup, port) := s.requests[r];
      WithRequest(s, r, if valid then Resolved(caller, binding, lookup, port) else Rejected(ShareRefused))
    else s
  }

  function Step(s: Resolver, max: nat, e: Event): Resolver {
    match e
    case Call(r, caller) => CallStep(s, r, caller)
    case Authorize(r, decision) => AuthorizeStep(s, max, r, decision)
    case Read(l, session) => RaceStep(s, l, ReadOutcome(session))
    case Expire(l) => RaceStep(s, l, Failure(LookupTimeout))
    case Clean(l) => CleanStep(s, l)
    case Settle(l) => SettleStep(s, l)
    case Resume(r) => ResumeStep(s, r)
    case ValidateShare(r, valid) => ValidateStep(s, r, valid)
  }

  function Run(max: nat, events: seq<Event>): Resolver {
    if events == [] then EMPTY else Step(Run(max, events[..|events| - 1]), max, events[|events| - 1])
  }

  // ---------- the invariant ----------

  /** A lookup others can still join: its cleanup has not run. */
  predicate Live(s: Resolver, l: nat) {
    l in s.lookups && (s.lookups[l].phase.Racing? || s.lookups[l].phase.Raced?)
  }

  predicate HasOutcome(s: Resolver, l: nat, outcome: Outcome) {
    l in s.lookups && !s.lookups[l].phase.Racing? && s.lookups[l].phase.outcome == outcome
  }

  predicate InRange(outcome: Outcome) {
    outcome.Success? ==> 1 <= outcome.value <= 65535
  }

  /** The map holds exactly the live lookups, each under its own binding. */
  predicate Tracked(s: Resolver) {
    (forall b <- s.inFlight.Keys :: EntryIsLive(s, b)) && (forall l <- s.lookups.Keys :: LiveHasEntry(s, l))
  }

  predicate EntryIsLive(s: Resolver, b: Binding) {
    b in s.inFlight ==> Live(s, s.inFlight[b]) && s.lookups[s.inFlight[b]].binding == b
  }

  predicate LiveHasEntry(s: Resolver, l: nat) {
    Live(s, l) ==> s.lookups[l].binding in s.inFlight && s.inFlight[s.lookups[l].binding] == l
  }

  /** A call that was let in: it has a share if its desktop needs one. */
  predicate Admitted(caller: Caller) {
    caller.capabilityRequired ==> caller.shared
  }

  /** A binding that a call may use: its own route, under the grant it was issued for. */
  predicate Serves(caller: Caller, binding: Binding) {
    && Admitted(caller) && binding.route == caller.route
    && (caller.grantRevision.Some? ==> binding.decision.grantRevision == caller.grantRevision.value)
  }

  predicate Joined(s: Resolver, request: Request) {
    match request
    case Authorizing(caller) => Admitted(caller)
    case Waiting(caller, binding, l) => Serves(caller, binding) && l in s.lookups && s.lookups[l].binding == binding
    case Rejected(_) => true
    case _ =>
      && Serves(request.caller, request.binding) && HasOutcome(s, request.lookup, Success(request.port))
      && s.lookups[request.lookup].binding == request.binding
  }

  predicate Bounded(s: Resolver) {
    forall l <- s.lookups.Keys :: l < s.started && (!s.lookups[l].phase.Racing? ==> InRange(s.lookups[l].phase.outcome))
  }

  predicate Inv(s: Resolver, max: nat) {
    && Tracked(s) && |s.inFlight| <= max
    && Bounded(s)
    && (forall r <- s.requests.Keys :: Joined(s, s.requests[r]))
  }

  function Rank(phase: Phase): nat {
    match phase
    case Racing => 0
    case Raced(_) => 1
    case Cleaned(_) => 2
    case Settled(_) => 3
  }

  /** Lookups are never dropped or rebound, only advance, and never change an outcome. */
  predicate Grows(s: Resolver, t: Resolver) {
    forall l <- s.lookups.Keys :: GrewAt(s, t, l)
  }

  predicate GrewAt(s: Resolver, t: Resolver, l: nat) {
    l in s.lookups ==> l in t.lookups && Grew(s.lookups[l], t.lookups[l])
  }

  predicate Grew(a: Lookup, b: Lookup) {
    && b.binding == a.binding && Rank(a.phase) <= Rank(b.phase)
    && (!a.phase.Racing? ==> b.phase.outcome == a.phase.outcome)
  }

  lemma JoinedStays(s: Resolver, t: Resolver, request: Request)
    requires Joined(s, request) && Grows(s, t)
    ensures Joined(t, request)
  {
  }

  lemma StartedEntry(s: Resolver, binding: Binding, b: Binding)
    requires s.started !in s.lookups && EntryIsLive(s, b)
    ensures EntryIsLive(Started(s, binding), b)
  {
  }

  lemma StartedLive(s: Resolver, binding: Binding, l: nat)
    requires binding !in s.inFlight && s.started !in s.lookups && LiveHasEntry(s, l)
    ensures LiveHasEntry(Started(s, binding), l)
  {
  }

  lemma StartTracks(s: Resolver, t: Resolver, binding: Binding)
    requires Tracked(s) && binding !in s.inFlight && s.started !in s.lookups && t == Started(s, binding)
    ensures Tracked(t)
  {
    forall b ensures EntryIsLive(t, b) {
      StartedEntry(s, binding, b);
    }
    forall l ensures LiveHasEntry(t, l) {
      StartedLive(s, binding, l);
    }
  }

  lemma StartGrows(s: Resolver, t: Resolver, binding: Binding)
    requires binding !in s.inFlight && s.started !in s.lookups && t == Started(s, binding)
    ensures Grows(s, t) && |t.inFlight| == |s.inFlight| + 1
  {
    assert t.inFlight.Keys == s.inFlight.Keys + {binding};
    assert t.lookups == s.lookups[s.started := Lookup(binding, Racing)];
    NewLookupGrows(s, t, s.started, Lookup(binding, Racing));
  }

  lemma NewLookupGrows(s: Resolver, t: Resolver, l: nat, next: Lookup)
    requires l !in s.lookups && t.lookups == s.lookups[l := next]
    ensures Grows(s, t)
  {
  }

  lemma StartKeepsInv(s: Resolver, max: nat, t: Resolver, binding: Binding)
    requires Inv(s, max) && binding !in s.inFlight && |s.inFlight| < max && t == Started(s, binding)
    ensures Inv(t, max)
  {
    StartTracks(s, t, binding);
    StartGrows(s, t, binding);
    AllJoinedStay(s, t);
  }

  lemma AllJoinedStay(s: Resolver, t: Resolver)
    requires Grows(s, t) && t.requests == s.requests && forall r <- s.requests.Keys :: Joined(s, s.requests[r])
    ensures forall r <- t.requests.Keys :: Joined(t, t.requests[r])
  {
    forall r | r in s.requests ensures Joined(t, s.requests[r]) {
      JoinedStays(s, t, s.requests[r]);
    }
  }

  lemma RequestKeepsInv(s: Resolver, max: nat, r: nat, request: Request)
    requires Inv(s, max) && Joined(s, request)
    ensures Inv(WithRequest(s, r, request), max)
  {
    var t := WithRequest(s, r, request);
    forall x | x in t.requests ensures Joined(t, t.requests[x]) {
      JoinedStays(s, t, t.requests[x]);
    }
  }

  lemma JoinKeepsInv(s: Resolver, max: nat, r: nat, caller: Caller, decision: Decision)
    requires Inv(s, max) && Admitted(caller)
    ensures Inv(JoinStep(s, max, r, caller, decision), max)
  {
    var binding := Binding(caller.route, decision);
    if caller.grantRevision.Some? && decision.grantRevision != caller.grantRevision.value {
      RequestKeepsInv(s, max, r, Rejected(GrantChanged));
    } else if binding in s.inFlight {
      RequestKeepsInv(s, max, r, Waiting(caller, binding, s.inFlight[binding]));
    } else if |s.inFlight| >= max {
      RequestKeepsInv(s, max, r, Rejected(LookupBusy));
    } else {
      StartKeepsInv(s, max, Started(s, binding), binding);
      RequestKeepsInv(Started(s, binding), max, r, Waiting(caller, binding, s.started));
    }
  }

  lemma AuthorizeKeepsInv(s: Resolver, max: nat, r: nat, decision: Result<Decision, Failure>)
    requires Inv(s, max)
    ensures Inv(AuthorizeStep(s, max, r, decision), max)
  {
    if r in s.requests && (s.requests[r].Authorizing? || s.requests[r].Rechecking?) {
      assert Joined(s, s.requests[r]);
      if decision.Success? && s.requests[r].Authorizing? {
        JoinKeepsInv(s, max, r, s.requests[r].caller, decision.value);
      } else {
        RequestKeepsInv(s, max, r, AuthorizeStep(s, max, r, decision).requests[r]);
      }
    }
  }

  /** A lookup that advances without becoming live or ending it. */
  predicate Advances(s: Resolver, t: Resolver, l: nat) {
    && l in s.lookups && l in t.lookups && t == WithPhase(s, l, t.lookups[l].phase)
    && (Live(s, l) <==> Live(t, l)) && Grew(s.lookups[l], t.lookups[l])
    && (!t.lookups[l].phase.Racing? ==> InRange(t.lookups[l].phase.outcome))
  }

  lemma AdvanceTracks(s: Resolver, t: Resolver, l: nat)
    requires Tracked(s) && Advances(s, t, l)
    ensures Tracked(t)
  {
    forall b | b in t.inFlight ensures EntryIsLive(t, b) {
      assert EntryIsLive(s, b);
    }
    forall k | k in t.lookups ensures LiveHasEntry(t, k) {
      assert LiveHasEntry(s, k);
    }
  }

  lemma OneLookupGrows(s: Resolver, t: Resolver, l: nat, next: Lookup)
    requires Bounded(s) && l in s.lookups && t.lookups == s.lookups[l := next] && t.started == s.started
    requires Grew(s.lookups[l], next) && (!next.phase.Racing? ==> InRange(next.phase.outcome))
    ensures Grows(s, t) && Bounded(t)
  {
  }

  lemma AdvanceKeepsInv(s: Resolver, max: nat, t: Resolver, l: nat)
    requires Inv(s, max) && Advances(s, t, l)
    ensures Inv(t, max)
  {
    AdvanceTracks(s, t, l);
    OneLookupGrows(s, t, l, t.lookups[l]);
    AllJoinedStay(s, t);
  }

  lemma RaceKeepsInv(s: Resolver, max: nat, l: nat, outcome: Outcome)
    requires Inv(s, max) && InRange(outcome)
    ensures Inv(RaceStep(s, l, outcome), max)
  {
    if l in s.lookups && s.lookups[l].phase.Racing? {
      AdvanceKeepsInv(s, max, RaceStep(s, l, outcome), l);
    }
  }

  /** What a cleanup deletes is its own lookup, never a successor's. */
  lemma CleanRemovesOwn(s: Resolver, max: nat, l: nat)
    requires Inv(s, max) && l in s.lookups && s.lookups[l].phase.Raced?
    ensures var b, t := s.lookups[l].binding, CleanStep(s, l);
            && b in s.inFlight && s.inFlight[b] == l && b !in t.inFlight
            && (forall other <- s.inFlight.Keys ::
               other != b ==> other in t.inFlight && t.inFlight[other] == s.inFlight[other])
            && (forall k <- s.lookups.Keys :: k != l ==> (Live(s, k) <==> Live(t, k)))
  {
    assert Live(s, l);
  }

  lemma CleanTracks(s: Resolver, max: nat, l: nat, t: Resolver)
    requires Inv(s, max) && l in s.lookups && s.lookups[l].phase.Raced? && t == CleanStep(s, l)
    ensures Tracked(t) && |t.inFlight| <= max
  {
    CleanRemovesOwn(s, max, l);
    assert t.inFlight.Keys == s.inFlight.Keys - {s.lookups[l].binding};
    forall k | k in t.lookups ensures LiveHasEntry(t, k) {
      assert LiveHasEntry(s, k);
    }
    forall other | other in t.inFlight ensures EntryIsLive(t, other) {
      assert EntryIsLive(s, other);
    }
  }

  lemma CleanGrows(s: Resolver, max: nat, l: nat, t: Resolver)
    requires Inv(s, max) && l in s.lookups && s.lookups[l].phase.Raced? && t == CleanStep(s, l)
    ensures Grows(s, t) && t.requests == s.requests && Bounded(t)
  {
    var cleaned := Lookup(s.lookups[l].binding, Cleaned(s.lookups[l].phase.outcome));
    assert t.lookups == s.lookups[l := cleaned];
    OneLookupGrows(s, t, l, cleaned);
  }

  lemma CleanKeepsInv(s: Resolver, max: nat, l: nat)
    requires Inv(s, max)
    ensures Inv(CleanStep(s, l), max)
  {
    if l in s.lookups && s.lookups[l].phase.Raced? {
      var t := CleanStep(s, l);
      CleanTracks(s, max, l, t);
      CleanGrows(s, max, l, t);
      AllJoinedStay(s, t);
    }
  }

  lemma SettleKeepsInv(s: Resolver, max: nat, l: nat)
    requires Inv(s, max)
    ensures Inv(SettleStep(s, l), max)
  {
    if l in s.lookups && s.lookups[l].phase.Cleaned? {
      AdvanceKeepsInv(s, max, SettleStep(s, l), l);
    }
  }

  lemma CallKeepsInv(s: Resolver, max: nat, r: nat, caller: Caller)
    requires Inv(s, max)
    ensures Inv(CallStep(s, r, caller), max)
  {
    if caller.capabilityRequired && !caller.shared {
      RequestKeepsInv(s, max, r, Rejected(BrokeredShareRequired));
    } else {
      RequestKeepsInv(s, max, r, Authorizing(caller));
    }
  }

  lemma ResumeKeepsInv(s: Resolver, max: nat, r: nat)
    requires Inv(s, max)
    ensures Inv(ResumeStep(s, r), max)
  {
    if r in s.requests && s.requests[r].Waiting? && s.requests[r].lookup in s.lookups
       && s.lookups[s.requests[r].lookup].phase.Settled?
    {
      RequestKeepsInv(s, max, r, ResumeStep(s, r).requests[r]);
    }
  }

  lemma ValidateKeepsInv(s: Resolver, max: nat, r: nat, valid: bool)
    requires Inv(s, max)
    ensures Inv(ValidateStep(s, r, valid), max)
  {
    if r in s.requests && s.requests[r].Validating? {
      assert Joined(s, s.requests[r]);
      RequestKeepsInv(s, max, r, ValidateStep(s, r, valid).requests[r]);
    }
  }

  lemma StepKeepsInv(s: Resolver, max: nat, e: Event)
    requires Inv(s, max)
    ensures Inv(Step(s, max, e), max)
  {
    match e
    case Call(r, caller) => CallKeepsInv(s, max, r, caller);
    case Authorize(r, decision) => AuthorizeKeepsInv(s, max, r, decision);
    case Read(l, session) => RaceKeepsInv(s, max, l, ReadOutcome(session));
    case Expire(l) => RaceKeepsInv(s, max, l, Failure(LookupTimeout));
    case Clean(l) => CleanKeepsInv(s, max, l);
    case Settle(l) => SettleKeepsInv(s, max, l);
    case Resume(r) => ResumeKeepsInv(s, max, r);
    case ValidateShare(r, valid) => ValidateKeepsInv(s, max, r, valid);
  }

  lemma {:induction false} RunKeepsInv(max: nat, events: seq<Event>)
    ensures Inv(Run(max, events), max)
  {
    if events == [] {
    } else {
      RunKeepsInv(max, events[..|events| - 1]);
      StepKeepsInv(Run(max, events[..|events| - 1]), max, events[|events| - 1]);
    }
  }
}
