/** The durable clean-window recorder (qualification_window.py). */
module QualificationWindow {
  import opened Common

  datatype Policy = Policy(
    windowId: string, owner: string, changeRef: string,
    duration: int, maxGap: int, checks: seq<string>)

  predicate ValidPolicy(policy: Policy) {
    && Token(policy.windowId) && Token(policy.owner) && Token(policy.changeRef)
    && 86400 <= policy.duration <= 604800 && 10 <= policy.maxGap <= 300
    && 1 <= |policy.checks| <= 32
    && (forall i, j :: 0 <= i < j < |policy.checks| ==> policy.checks[i] != policy.checks[j])
    && forall key <- policy.checks :: Token(key)
  }

  datatype Sample = Sample(
    at: Time, releaseId: string, bootId: string, generation: int,
    checks: map<string, bool>, refs: map<string, string>)

  datatype Error = BadTime | BadIdentity | BadChecks | NotAdvancing | Full | KindMismatch | PolicyChanged | BadPolicy

  datatype Reason = SamplingGap | CycleChanged | CheckFailed(key: string)

  datatype Break = Break(at: Time, reasons: set<Reason>)

  datatype Report = Report(complete: bool, recent: bool, span: Time, samples: nat, breaks: seq<Break>)

  const CAPACITY: nat := 10000

  function Names(policy: Policy): set<string> {
    set key | key in policy.checks
  }

  /** The error `observe` raises for a sample after the recorded ones, if any. */
  function Objection(policy: Policy, recorded: seq<Sample>, s: Sample): Option<Error> {
    if s.at < 0.0 then Some(BadTime)
    else if !Token(s.releaseId) || !BootId(s.bootId) || s.generation < 0 then Some(BadIdentity)
    else if s.checks.Keys != Names(policy) || s.refs.Keys != s.checks.Keys
            || exists key <- s.refs.Keys :: !Token(s.refs[key]) then Some(BadChecks)
    else if recorded != [] && s.at <= recorded[|recorded| - 1].at then Some(NotAdvancing)
    else if |recorded| >= CAPACITY then Some(Full)
    else None
  }

  /** The observation tables that some run of `observe` can produce. */
  ghost predicate Reachable(policy: Policy, recorded: seq<Sample>) {
    recorded == [] ||
    (Reachable(policy, recorded[..|recorded| - 1])
     && Objection(policy, recorded[..|recorded| - 1], recorded[|recorded| - 1]) == None)
  }

  predicate Passes(s: Sample) {
    forall key <- s.checks.Keys :: s.checks[key]
  }

  predicate SameCycle(a: Sample, b: Sample) {
    a.releaseId == b.releaseId && a.bootId == b.bootId && a.generation == b.generation
  }

  /** Neighbouring observations of one cycle without a sampling gap between them. */
  predicate Linked(policy: Policy, a: Sample, b: Sample) {
    SameCycle(a, b) && b.at - a.at <= policy.maxGap as real
  }

  /** Observations lo..hi pass every check, keep one cycle and leave no sampling gap. */
  predicate Clean(policy: Policy, recorded: seq<Sample>, lo: nat, hi: nat)
    requires lo <= hi <= |recorded|
  {
    && (forall i :: lo <= i < hi ==> Passes(recorded[i]))
    && forall i :: lo < i < hi ==> Linked(policy, recorded[i - 1], recorded[i])
  }

  function Previous(recorded: seq<Sample>, i: nat): Option<Sample>
    requires i <= |recorded|
  {
    if i == 0 then None else Some(recorded[i - 1])
  }

  /** Why a sample breaks the window, given the one before it. */
  function Reasons(policy: Policy, last: Option<Sample>, s: Sample): set<Reason> {
    (if last.Some? && s.at - last.value.at > policy.maxGap as real then {SamplingGap} else {}) +
    (if last.Some? && !SameCycle(last.value, s) then {CycleChanged} else {}) +
    set key | key in s.checks.Keys && !s.checks[key] :: CheckFailed(key)
  }

  /** The breaks of the first n observations. */
  function Breaks(policy: Policy, recorded: seq<Sample>, n: nat): seq<Break>
    requires n <= |recorded|
  {
    if n == 0 then []
    else
      var reasons := Reasons(policy, Previous(recorded, n - 1), recorded[n - 1]);
      Breaks(policy, recorded, n - 1) + if reasons == {} then [] else [Break(recorded[n - 1].at, reasons)]
  }

  /** What completion means: some clean suffix is long enough, and its end is recent. */
  ghost predicate Qualified(policy: Policy, recorded: seq<Sample>, now: Time) {
    && recorded != []
    && 0.0 <= now - recorded[|recorded| - 1].at <= policy.maxGap as real
    && exists lo | 0 <= lo < |recorded| ::
         Clean(policy, recorded, lo, |recorded|)
         && recorded[|recorded| - 1].at - recorded[lo].at >= policy.duration as real
  }

  lemma {:induction false} TimesAdvance(policy: Policy, recorded: seq<Sample>)
    requires Reachable(policy, recorded)
    ensures forall i, j :: 0 <= i < j < |recorded| ==> recorded[i].at < recorded[j].at
    ensures |recorded| <= CAPACITY
  {
    if recorded != [] {
      var before := recorded[..|recorded| - 1];
      TimesAdvance(policy, before);
      forall i, j | 0 <= i < j < |recorded| ensures recorded[i].at < recorded[j].at {
        assert recorded[i] == before[i];
        if j < |recorded| - 1 { assert recorded[j] == before[j]; }
        else if i < |before| - 1 { assert before[i].at < before[|before| - 1].at; }
      }
    }
  }

  const KIND := "qualification"

  /** What a store holds of a window: its kind, the policy it was started with, and the samples so far. */
  datatype Evidence = Evidence(kind: Option<string>, policy: Option<Policy>, samples: seq<Sample>)

  ghost predicate SoundEvidence(e: Evidence) {
    if e.policy.Some? then Reachable(e.policy.value, e.samples) else e.samples == []
  }

  class Window {
    const policy: Policy
    var observations: seq<Sample>

    ghost predicate Valid() reads this {
      ValidPolicy(policy) && Reachable(policy, observations)
    }

    constructor (policy: Policy, recorded: seq<Sample>)
      requires ValidPolicy(policy) && Reachable(policy, recorded)
      ensures Valid() && this.policy == policy && observations == recorded
    {
      this.policy := policy;
      observations := recorded;
    }

    /**
     * Opens the durable window, new or recorded before: a store keeps the kind of its first claim, and a
     * window the policy it was started with. A claim stays even if the policy is then refused.
     */
    static method Open(policy: Policy, stored: Evidence) returns (r: Result<Window, Error>, after: Evidence)
      requires SoundEvidence(stored)
      ensures SoundEvidence(after) && after.samples == stored.samples
      ensures r.Success? <==>
              ValidPolicy(policy) && stored.kind in {None, Some(KIND)} && stored.policy in {None, Some(policy)}
      ensures r.Success? ==>
                && fresh(r.value) && r.value.Valid() && r.value.policy == policy
                   && r.value.observations == stored.samples
                && after == stored.(kind := Some(KIND), policy := Some(policy))
      ensures r.Failure? ==>
                if !ValidPolicy(policy) then r.error == BadPolicy && after == stored
                else if stored.kind !in {None, Some(KIND)} then r.error == KindMismatch && after == stored
                else r.error == PolicyChanged && after == stored.(kind := Some(KIND))
    {
      after := stored;
      if !ValidPolicy(policy) {
        return Failure(BadPolicy), after;
      }
      if after.kind.None? {
        after := after.(kind := Some(KIND));
      }
      if after.kind != Some(KIND) {
        return Failure(KindMismatch), after;
      }
      if after.policy.Some? && after.policy.value != policy {
        return Failure(PolicyChanged), after;
      }
      after := after.(policy := Some(policy));
      var window := new Window(policy, after.samples);
      r := Success(window);
    }

    method Observe(s: Sample) returns (r: Result<(), Error>)
      requires Valid()
      modifies this`observations
      ensures Valid()
      ensures match Objection(policy, old(observations), s)
              case None => r == Success(()) && observations == old(observations) + [s]
              case Some(e) => r == Failure(e) && observations == old(observations)
    {
      if s.at < 0.0 {
        return Failure(BadTime);
      }
      if !Token(s.releaseId) || !BootId(s.bootId) || s.generation < 0 {
        return Failure(BadIdentity);
      }
      if s.checks.Keys != Names(policy) || s.refs.Keys != s.checks.Keys
         || exists key <- s.refs.Keys :: !Token(s.refs[key]) {
        return Failure(BadChecks);
      }
      if observations != [] && s.at <= observations[|observations| - 1].at {
        return Failure(NotAdvancing);
      }
      if |observations| >= CAPACITY {
        return Failure(Full);
      }
      ghost var before := observations;
      observations := observations + [s];
      assert observations[..|observations| - 1] == before;
      r := Success(());
    }

    method GetReport(now: Time) returns (r: Result<Report, Error>)
      requires Valid()
      ensures now < 0.0 ==> r == Failure(BadTime)
      ensures now >= 0.0 ==> r.Success?
      ensures r.Success? ==>
                && (r.value.complete <==> Qualified(policy, observations, now))
                && r.value.samples <= |observations|
                && (forall k: nat :: CleanTail(policy, observations, k) <==> k <= r.value.samples)
                && r.value.span ==
                     (if r.value.samples == 0 then 0.0
                      else observations[|observations| - 1].at - observations[|observations| - r.value.samples].at)
                && r.value.breaks == Breaks(policy, observations, |observations|)
    {
      if now < 0.0 {
        return Failure(BadTime);
      }
      var start, last, breaks, samples := Scan();
      var recent := last.Some? && 0.0 <= now - last.value.at <= policy.maxGap as real;
      var span := if start.Some? then last.value.at - start.value else 0.0;
      ReportIsRight(policy, observations, now, start, samples);
      r := Success(Report(recent && span >= policy.duration as real, recent, span, samples, breaks));
    }

    /** The loop of the report: where the clean stretch up to the last sample starts, and every break. */
    method Scan() returns (start: Option<Time>, last: Option<Sample>, breaks: seq<Break>, samples: nat)
      ensures Reporting(policy, observations, |observations|, last, breaks, start, samples)
    {
      start, last, breaks, samples := None, None, [], 0;
      for i := 0 to |observations|
        invariant Reporting(policy, observations, i, last, breaks, start, samples)
      {
        var s := observations[i];
        var reasons := Reasons(policy, last, s);
        ReportStep(policy, observations, i, last, breaks, start, samples);
        if reasons != {} {
          breaks := breaks + [Break(s.at, reasons)];
          start, samples := None, 0;
        }
        if Passes(s) {
          if start.None? {
            start := Some(s.at);
          }
          samples := samples + 1;
        }
        last := Some(s);
      }
    }
  }

  /** The report loop after i observations. */
  ghost predicate Reporting(policy: Policy, recorded: seq<Sample>, i: nat, last: Option<Sample>, breaks: seq<Break>,
                            start: Option<Time>, samples: nat)
    requires i <= |recorded|
  {
    last == Previous(recorded, i) && breaks == Breaks(policy, recorded, i)
        && Scanned(policy, recorded, i, start, samples)
  }

  lemma ReportStep(policy: Policy, recorded: seq<Sample>, i: nat, last: Option<Sample>, breaks: seq<Break>,
                   start: Option<Time>, samples: nat)
    requires i < |recorded| && Reporting(policy, recorded, i, last, breaks, start, samples)
    ensures var s, reasons := recorded[i], Reasons(policy, last, recorded[i]);
            var start1, samples1 := if reasons == {} then start else None, if reasons == {} then samples else 0;
            Reporting(policy, recorded, i + 1, Some(s), breaks + if reasons == {} then [] else [Break(s.at, reasons)],
                      if !Passes(s) then start1 else if start1.None? then Some(s.at) else start1,
                      if Passes(s) then samples1 + 1 else samples1)
  {
    ScanStep(policy, recorded, i, start, samples);
  }

  /** The counters after the last observation decide completion. */
  lemma ReportIsRight(policy: Policy, recorded: seq<Sample>, now: Time, start: Option<Time>, n: nat)
    requires ValidPolicy(policy) && Reachable(policy, recorded) && Scanned(policy, recorded, |recorded|, start, n)
    ensures var last := Previous(recorded, |recorded|);
            var recent := last.Some? && 0.0 <= now - last.value.at <= policy.maxGap as real;
            var span := if start.Some? then last.value.at - start.value else 0.0;
            && (recent && span >= policy.duration as real <==> Qualified(policy, recorded, now))
            && n <= |recorded| && (forall k: nat :: CleanTail(policy, recorded, k) <==> k <= n)
            && span == if n == 0 then 0.0 else recorded[|recorded| - 1].at - recorded[|recorded| - n].at
  {
    MaximalTail(policy, recorded, start, n);
    QualifiedBySpan(policy, recorded, now, n);
  }

  lemma NoReasonMeansClean(policy: Policy, recorded: seq<Sample>, i: nat)
    requires i < |recorded|
    ensures Reasons(policy, Previous(recorded, i), recorded[i]) == {} <==>
            Passes(recorded[i]) && (i > 0 ==> Linked(policy, recorded[i - 1], recorded[i]))
  {
    var s, r := recorded[i], Reasons(policy, Previous(recorded, i), recorded[i]);
    if r != {} {
      var x :| x in r;
    } else {
      assert SamplingGap !in r && CycleChanged !in r;
      forall key | key in s.checks.Keys ensures s.checks[key] {
        assert CheckFailed(key) !in r;
      }
    }
  }

  ghost predicate CleanTail(policy: Policy, recorded: seq<Sample>, k: nat) {
    k <= |recorded| && Clean(policy, recorded, |recorded| - k, |recorded|)
  }

  /** What the report loop knows after i observations: a clean run of maximal length ends there. */
  ghost predicate Scanned(policy: Policy, recorded: seq<Sample>, i: nat, start: Option<Time>, samples: nat)
    requires i <= |recorded|
  {
    && samples <= i && (start.None? <==> samples == 0)
    && (start.Some? ==> start.value == recorded[i - samples].at)
    && Clean(policy, recorded, i - samples, i)
    && (samples < i ==> !Clean(policy, recorded, i - samples - 1, i))
  }

  lemma CleanStep(policy: Policy, recorded: seq<Sample>, lo: nat, i: nat)
    requires lo <= i < |recorded|
    ensures Clean(policy, recorded, lo, i + 1) <==>
            && Clean(policy, recorded, lo, i) && Passes(recorded[i])
            && (lo < i ==> Linked(policy, recorded[i - 1], recorded[i]))
  {
  }

  lemma ScanStep(policy: Policy, recorded: seq<Sample>, i: nat, start: Option<Time>, samples: nat)
    requires i < |recorded| && Scanned(policy, recorded, i, start, samples)
    ensures var kept := Reasons(policy, Previous(recorded, i), recorded[i]) == {};
            var start1, samples1 := if kept then start else None, if kept then samples else 0;
            Scanned(policy, recorded, i + 1,
                    if !Passes(recorded[i]) then start1 else if start1.None? then Some(recorded[i].at) else start1,
                    if Passes(recorded[i]) then samples1 + 1 else samples1)
  {
    NoReasonMeansClean(policy, recorded, i);
    CleanStep(policy, recorded, i - samples, i);
    if samples < i { CleanStep(policy, recorded, i - samples - 1, i); }
    CleanStep(policy, recorded, i, i);
    if i > 0 { CleanStep(policy, recorded, i - 1, i); }
  }

  /** A clean suffix that cannot be extended bounds every clean suffix. */
  lemma MaximalTail(policy: Policy, recorded: seq<Sample>, start: Option<Time>, n: nat)
    requires Scanned(policy, recorded, |recorded|, start, n)
    ensures forall k: nat :: CleanTail(policy, recorded, k) <==> k <= n
  {
  }

  lemma QualifiedBySpan(policy: Policy, recorded: seq<Sample>, now: Time, n: nat)
    requires ValidPolicy(policy) && Reachable(policy, recorded) && n <= |recorded|
    requires forall k: nat :: CleanTail(policy, recorded, k) <==> k <= n
    ensures Qualified(policy, recorded, now) <==>
            && n > 0 && 0.0 <= now - recorded[|recorded| - 1].at <= policy.maxGap as real
            && recorded[|recorded| - 1].at - recorded[|recorded| - n].at >= policy.duration as real
  {
    TimesAdvance(policy, recorded);
    if Qualified(policy, recorded, now) {
      var lo: nat :| lo < |recorded| && Clean(policy, recorded, lo, |recorded|)
                     && recorded[|recorded| - 1].at - recorded[lo].at >= policy.duration as real;
      assert CleanTail(policy, recorded, |recorded| - lo);
    }
    if n > 0 { assert CleanTail(policy, recorded, n); }
  }

  lemma NoNewBreak(policy: Policy, recorded: seq<Sample>, n: nat)
    requires 0 < n <= |recorded|
    ensures Breaks(policy, recorded, n) == [] <==>
              Breaks(policy, recorded, n - 1) == [] && Reasons(policy, Previous(recorded, n - 1), recorded[n - 1]) == {}
  {
  }

  /** An uninterrupted history is exactly one without recorded breaks. */
  lemma {:induction false} NoBreaksIffClean(policy: Policy, recorded: seq<Sample>, n: nat)
    requires n <= |recorded|
    ensures Breaks(policy, recorded, n) == [] <==> Clean(policy, recorded, 0, n)
  {
    if n > 0 {
      NoBreaksIffClean(policy, recorded, n - 1);
      NoNewBreak(policy, recorded, n);
      NoReasonMeansClean(policy, recorded, n - 1);
      CleanStep(policy, recorded, 0, n - 1);
    }
  }

  // ---------- how many observations completion needs ----------

  /** k+1 clean neighbours span at most k sampling gaps. */
  lemma {:induction false} SpanBound(policy: Policy, recorded: seq<Sample>, lo: nat, hi: nat)
    requires lo < hi <= |recorded| && Clean(policy, recorded, lo, hi)
    ensures recorded[hi - 1].at - recorded[lo].at <= ((hi - lo - 1) * policy.maxGap) as real
    decreases hi
  {
    if lo + 1 < hi {
      SpanBound(policy, recorded, lo, hi - 1);
      assert (hi - lo - 1) * policy.maxGap == (hi - lo - 2) * policy.maxGap + policy.maxGap;
    }
  }

  /** Samples that pass every check of the policy, one per maximal gap. */
  function Ideal(policy: Policy, n: nat): seq<Sample> {
    seq(n, i => Sample((i * policy.maxGap) as real, "r", seq(32, j => 'a'), 0,
                       map key | key in Names(policy) :: true, map key | key in Names(policy) :: "e"))
  }

  lemma MultiplyMonotone(a: int, b: int, c: int)
    requires a <= b && 0 <= c
    ensures a * c <= b * c
  {
  }

  lemma {:induction false} IdealIsReachable(policy: Policy, n: nat)
    requires ValidPolicy(policy) && n <= CAPACITY
    ensures Reachable(policy, Ideal(policy, n))
  {
    if n > 0 {
      IdealIsReachable(policy, n - 1);
      var all := Ideal(policy, n);
      assert all[..n - 1] == Ideal(policy, n - 1);
      MultiplyMonotone(0, n - 1, policy.maxGap);
      if n > 1 { assert (n - 1) * policy.maxGap == (n - 2) * policy.maxGap + policy.maxGap; }
    }
  }

  lemma IdealIsClean(policy: Policy, n: nat)
    requires ValidPolicy(policy)
    ensures Clean(policy, Ideal(policy, n), 0, n)
  {
    var all := Ideal(policy, n);
    forall i | 0 < i < n ensures Linked(policy, all[i - 1], all[i]) {
      assert i * policy.maxGap == (i - 1) * policy.maxGap + policy.maxGap;
    }
  }

  /** Completion needs at least 1 + duration / maxGap observations (rounded up). */
  lemma CompletionNeedsSamples(policy: Policy, recorded: seq<Sample>, now: Time)
    requires ValidPolicy(policy) && Reachable(policy, recorded) && Qualified(policy, recorded, now)
    ensures policy.duration <= (|recorded| - 1) * policy.maxGap
  {
    var lo: nat :| lo < |recorded| && Clean(policy, recorded, lo, |recorded|)
                   && recorded[|recorded| - 1].at - recorded[lo].at >= policy.duration as real;
    SpanBound(policy, recorded, lo, |recorded|);
    MultiplyMonotone(|recorded| - lo - 1, |recorded| - 1, policy.maxGap);
  }

  /**
   * With its 10000-observation cap, the recorder can ever report a policy complete exactly
   * when 9999 gaps cover the required duration.
   */
  lemma CompletableIff(policy: Policy)
    requires ValidPolicy(policy)
    ensures (exists recorded: seq<Sample>, now: Time :: Reachable(policy, recorded) && Qualified(policy, recorded, now))
       <==> policy.duration <= (CAPACITY - 1) * policy.maxGap
  {
    if exists recorded: seq<Sample>, now: Time :: Reachable(policy, recorded) && Qualified(policy, recorded, now) {
      var recorded: seq<Sample>, now: Time :| Reachable(policy, recorded) && Qualified(policy, recorded, now);
      CompletionNeedsSamples(policy, recorded, now);
      TimesAdvance(policy, recorded);
      MultiplyMonotone(|recorded| - 1, CAPACITY - 1, policy.maxGap);
    }
    if policy.duration <= (CAPACITY - 1) * policy.maxGap {
      IdealIsReachable(policy, CAPACITY);
      IdealQualifies(policy, CAPACITY);
    }
  }

  lemma IdealQualifies(policy: Policy, n: nat)
    requires ValidPolicy(policy) && n > 0 && policy.duration <= (n - 1) * policy.maxGap
    ensures Qualified(policy, Ideal(policy, n), Ideal(policy, n)[n - 1].at)
  {
    var all := Ideal(policy, n);
    IdealIsClean(policy, n);
    assert all[n - 1].at - all[0].at == ((n - 1) * policy.maxGap) as real;
    assert Clean(policy, all, 0, |all|);
  }

  /** The constructor accepts a policy that no run of the recorder can ever complete. */
  lemma AcceptedPolicyThatNeverCompletes(policy: Policy, recorded: seq<Sample>, now: Time)
    requires policy == Policy("w", "o", "c", 100000, 10, ["transport"])
    requires Reachable(policy, recorded)
    ensures ValidPolicy(policy) && !Qualified(policy, recorded, now)
  {
    CompletableIff(policy);
  }
}
