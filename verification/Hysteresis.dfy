/**
 * The probe monitor's hysteresis (reachability.py): a few counters stand for the whole
 * sample history, and every change of the active state is one ledger transition.
 */
module Hysteresis {
  import opened Common

  const HEALTHY := "healthy"
  const OUTCOMES := {
    HEALTHY, "public_route_drift", "resource_pressure", "https_unreachable", "ssh_unreachable",
    "public_path_unreachable", "host_or_public_path_unreachable", "internal_signal_unavailable"}

  datatype Policy = Policy(failAfter: nat, recoverAfter: nat, maxGap: Time)

  predicate ValidPolicy(policy: Policy) {
    1 <= policy.failAfter <= 10 && 1 <= policy.recoverAfter <= 10 && 1.0 <= policy.maxGap <= 3600.0
  }

  /** The persisted monitor state. A missing failure_count reads as zero. */
  datatype Memory = Memory(active: string, candidate: Option<string>, count: nat, failureCount: nat, sequence: nat)

  const FRESH := Memory(HEALTHY, None, 0, 0, 0)

  datatype Sample = Sample(outcome: string, at: Time)

  datatype Emission = Emission(sequence: nat, state: string, previous: string, at: Time)

  /** The evidence part of one observation: reset on a gap, then count the sample. */
  function Counted(policy: Policy, m: Memory, last: Option<Time>, s: Sample): Memory {
    var m := if last.Some? && s.at - last.value > policy.maxGap
             then m.(candidate := None, count := 0, failureCount := 0) else m;
    m.(candidate := Some(s.outcome),
       count := if m.candidate == Some(s.outcome) then m.count + 1 else 1,
       failureCount := if s.outcome == HEALTHY then 0 else m.failureCount + 1)
  }

  /** Whether the counted evidence moves the active state to the sampled outcome. */
  predicate Moves(policy: Policy, m: Memory, outcome: string) {
    var threshold := if outcome == HEALTHY then policy.recoverAfter else policy.failAfter;
    var evidence := if m.active == HEALTHY && outcome != HEALTHY then m.failureCount else m.count;
    outcome != m.active && evidence >= threshold
  }

  function Decide(policy: Policy, m: Memory, s: Sample): (Memory, Option<Emission>) {
    if Moves(policy, m, s.outcome) then
      (m.(active := s.outcome, sequence := m.sequence + 1),
       Some(Emission(m.sequence + 1, s.outcome, m.active, s.at)))
    else (m, None)
  }

  function Advance(policy: Policy, m: Memory, last: Option<Time>, s: Sample): (Memory, Option<Emission>) {
    Decide(policy, Counted(policy, m, last, s), s)
  }

  function LastAt(h: seq<Sample>): Option<Time> {
    if h == [] then None else Some(h[|h| - 1].at)
  }

  /** The memory after a whole history of accepted samples. */
  function Replay(policy: Policy, h: seq<Sample>): Memory {
    if h == [] then FRESH
    else
      var before := h[..|h| - 1];
      Advance(policy, Replay(policy, before), LastAt(before), h[|h| - 1]).0
  }

  lemma ReplayNext(policy: Policy, h: seq<Sample>, s: Sample)
    ensures Replay(policy, h + [s]) == Advance(policy, Replay(policy, h), LastAt(h), s).0
    ensures LastAt(h + [s]) == Some(s.at)
  {
    assert (h + [s])[..|h|] == h;
  }

  /** The transitions a history has written to the ledger. */
  function Emissions(policy: Policy, h: seq<Sample>): seq<Emission> {
    if h == [] then []
    else
      var before := h[..|h| - 1];
      var emitted := Advance(policy, Replay(policy, before), LastAt(before), h[|h| - 1]).1;
      Emissions(policy, before) + if emitted.Some? then [emitted.value] else []
  }

  // ---------- the specification, over the history alone ----------

  /** The last k samples exist and have no gap between neighbours. */
  predicate GapFree(policy: Policy, h: seq<Sample>, k: nat) {
    k <= |h| && forall i :: |h| - k < i < |h| ==> h[i].at - h[i - 1].at <= policy.maxGap
  }

  predicate Identical(policy: Policy, h: seq<Sample>, k: nat) {
    GapFree(policy, h, k) && forall i :: |h| - k <= i < |h| ==> h[i].outcome == h[|h| - 1].outcome
  }

  predicate Unhealthy(policy: Policy, h: seq<Sample>, k: nat) {
    GapFree(policy, h, k) && forall i :: |h| - k <= i < |h| ==> h[i].outcome != HEALTHY
  }

  /** The incident state as an operator reads the policy: no counters, only windows of samples. */
  function ActiveState(policy: Policy, h: seq<Sample>): string {
    if h == [] then HEALTHY
    else
      var active, outcome := ActiveState(policy, h[..|h| - 1]), h[|h| - 1].outcome;
      var moved :=
        if outcome == active then false
        else if outcome == HEALTHY then Identical(policy, h, policy.recoverAfter)
        else if active == HEALTHY then Unhealthy(policy, h, policy.failAfter)
        else Identical(policy, h, policy.failAfter);
      if moved then outcome else active
  }

  // ---------- refinement ----------

  lemma GapFreeStep(policy: Policy, h: seq<Sample>, k: nat)
    requires 2 <= k <= |h|
    ensures GapFree(policy, h, k)
       <==> h[|h| - 1].at - h[|h| - 2].at <= policy.maxGap && GapFree(policy, h[..|h| - 1], k - 1)
  {
    var before := h[..|h| - 1];
    if h[|h| - 1].at - h[|h| - 2].at <= policy.maxGap && GapFree(policy, before, k - 1) {
      forall i | |h| - k < i < |h| ensures h[i].at - h[i - 1].at <= policy.maxGap {
        if i < |h| - 1 { assert before[i].at - before[i - 1].at <= policy.maxGap; }
      }
    }
    if GapFree(policy, h, k) {
      forall i | |before| - (k - 1) < i < |before| ensures before[i].at - before[i - 1].at <= policy.maxGap {
        assert h[i].at - h[i - 1].at <= policy.maxGap;
      }
    }
  }

  /** `count` is the length of the longest gap-free suffix of identical outcomes. */
  lemma {:induction false} CountMeasuresStreak(policy: Policy, h: seq<Sample>)
    requires h != []
    ensures var m := Replay(policy, h);
            && m.candidate == Some(h[|h| - 1].outcome)
            && 1 <= m.count <= |h|
            && forall k: nat :: 1 <= k <= |h| ==> (Identical(policy, h, k) <==> k <= m.count)
  {
    var before, m := h[..|h| - 1], Replay(policy, h);
    if before != [] { CountMeasuresStreak(policy, before); }
    forall k: nat | 1 <= k <= |h| ensures Identical(policy, h, k) <==> k <= m.count {
      if 2 <= k {
        GapFreeStep(policy, h, k);
        assert Identical(policy, h, k) <==>
          h[|h| - 1].at - h[|h| - 2].at <= policy.maxGap && h[|h| - 2].outcome == h[|h| - 1].outcome
              && Identical(policy, before, k - 1) by {
          assert before[|before| - 1] == h[|h| - 2];
          if h[|h| - 2].outcome == h[|h| - 1].outcome && Identical(policy, before, k - 1) {
            forall i | |h| - k <= i < |h| ensures h[i].outcome == h[|h| - 1].outcome {
              if i < |h| - 1 { assert before[i] == h[i]; }
            }
          }
          if Identical(policy, h, k) {
            assert h[|h| - 2].outcome == h[|h| - 1].outcome;
            forall i | |before| - (k - 1) <= i < |before| ensures before[i].outcome == before[|before| - 1].outcome {
              assert before[i] == h[i];
            }
          }
        }
      }
    }
  }

  /** `failure_count` is the length of the longest gap-free unhealthy suffix, whatever its failure classes. */
  lemma {:induction false} FailureCountMeasuresOutage(policy: Policy, h: seq<Sample>)
    requires h != []
    ensures var m := Replay(policy, h);
            && m.failureCount <= |h|
            && forall k: nat :: 1 <= k <= |h| ==> (Unhealthy(policy, h, k) <==> k <= m.failureCount)
  {
    var before, m := h[..|h| - 1], Replay(policy, h);
    if before != [] { FailureCountMeasuresOutage(policy, before); }
    forall k: nat | 1 <= k <= |h| ensures Unhealthy(policy, h, k) <==> k <= m.failureCount {
      if 2 <= k {
        GapFreeStep(policy, h, k);
        assert Unhealthy(policy, h, k) <==>
          h[|h| - 1].at - h[|h| - 2].at <= policy.maxGap && h[|h| - 1].outcome != HEALTHY
              && Unhealthy(policy, before, k - 1) by {
          if h[|h| - 1].outcome != HEALTHY && Unhealthy(policy, before, k - 1) {
            forall i | |h| - k <= i < |h| ensures h[i].outcome != HEALTHY {
              if i < |h| - 1 { assert before[i] == h[i]; }
            }
          }
          if Unhealthy(policy, h, k) {
            assert h[|h| - 1].outcome != HEALTHY;
            forall i | |before| - (k - 1) <= i < |before| ensures before[i].outcome != HEALTHY {
              assert before[i] == h[i];
            }
          }
        }
      } else {
        assert k == 1;
        assert Unhealthy(policy, h, 1) <==> h[|h| - 1].outcome != HEALTHY;
      }
    }
  }

  /** The counters refine the history: after any samples the active state is the specified one. */
  lemma {:induction false} ActiveRefinesHistory(policy: Policy, h: seq<Sample>)
    requires ValidPolicy(policy)
    ensures Replay(policy, h).active == ActiveState(policy, h)
  {
    if h != [] {
      ActiveRefinesHistory(policy, h[..|h| - 1]);
      CountMeasuresStreak(policy, h);
      FailureCountMeasuresOutage(policy, h);
      assert forall k: nat :: k > |h| ==> !Identical(policy, h, k) && !Unhealthy(policy, h, k);
    }
  }

  /** The transitions of any history chain from healthy to the active state, numbered without holes. */
  lemma {:induction false} LedgerReplaysToState(policy: Policy, h: seq<Sample>)
    ensures var e, m := Emissions(policy, h), Replay(policy, h);
            && |e| == m.sequence
            && m.active == (if e == [] then HEALTHY else e[|e| - 1].state)
            && forall i :: 0 <= i < |e| ==>
                 && e[i].sequence == i + 1
                 && e[i].previous == (if i == 0 then HEALTHY else e[i - 1].state)
                 && e[i].previous != e[i].state
  {
    if h != [] {
      LedgerReplaysToState(policy, h[..|h| - 1]);
    }
  }

  /** The index just after the sample of the latest transition. */
  function SettledAt(policy: Policy, h: seq<Sample>): nat {
    if h == [] then 0
    else
      var before := h[..|h| - 1];
      if Advance(policy, Replay(policy, before), LastAt(before), h[|h| - 1]).1.Some? then |h|
      else SettledAt(policy, before)
  }

  function Threshold(policy: Policy): nat {
    if policy.failAfter < policy.recoverAfter then policy.failAfter else policy.recoverAfter
  }

  /** Evidence for the next transition is gathered after the previous one. */
  lemma {:induction false} EvidenceIsFresh(policy: Policy, h: seq<Sample>)
    ensures var m, t := Replay(policy, h), SettledAt(policy, h);
            && t <= |h|
            && (m.active == HEALTHY ==> m.failureCount <= |h| - t)
            && (m.candidate != Some(m.active) ==> m.count <= |h| - t)
  {
    if h != [] {
      EvidenceIsFresh(policy, h[..|h| - 1]);
    }
  }

  lemma MultiplyStep(n: nat, k: nat)
    ensures (n + 1) * k == n * k + k
  {
  }

  /** Flapping is bounded: every transition costs at least the smaller threshold in samples. */
  lemma {:induction false} TransitionsAreRare(policy: Policy, h: seq<Sample>)
    ensures Replay(policy, h).sequence * Threshold(policy) <= SettledAt(policy, h) <= |h|
    ensures |Emissions(policy, h)| * Threshold(policy) <= |h|
  {
    LedgerReplaysToState(policy, h);
    if h != [] {
      var before := h[..|h| - 1];
      TransitionsAreRare(policy, before);
      EvidenceIsFresh(policy, before);
      MultiplyStep(Replay(policy, before).sequence, Threshold(policy));
    }
  }
}
