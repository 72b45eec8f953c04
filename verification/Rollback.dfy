/**
 * Taking a compiled drop-in back (hardening_plan.py, verify_rollback): the record of a profile removes
 * what was compiled for it, and no other reviewed or edited content.
 */
module Rollback {
  import opened Common
  import opened Durations
  import opened Strings
  import opened Hardening
  import opened DropIns

  /** What the drop-in sets: the properties and the two limits. */
  predicate SameSettings(p: Profile, q: Profile) {
    p.properties == q.properties && p.budget.max == q.budget.max && p.restart == q.restart
  }

  lemma {:induction false} SameLines(keys: seq<string>, p: Profile, q: Profile)
    requires p.properties == q.properties
    ensures AllLines(keys, p) == AllLines(keys, q)
  {
    if keys != [] {
      SameLines(keys[1..], p, q);
    }
  }

  lemma ShowNatIsInjective(m: nat, n: nat)
    requires ShowNat(m) == ShowNat(n)
    ensures m == n
  {
    ReadShowNat(m);
    ReadShowNat(n);
  }

  lemma LimitsAgree(u: Unit, p: Profile, q: Profile)
    requires RestartOk(p.restart) && p.budget.max >= 1 && RestartOk(q.restart) && q.budget.max >= 1
    requires LimitsConfigured(u, p.budget.max, p.restart.delay, p.restart.interval, p.restart.burst)
    requires LimitsConfigured(u, q.budget.max, q.restart.delay, q.restart.interval, q.restart.burst)
    ensures p.budget.max == q.budget.max && p.restart == q.restart
  {
    ShowNatIsInjective(p.budget.max, q.budget.max);
    var a, b := ShowNat(p.restart.delay), ShowNat(q.restart.delay);
    assert (a + "s")[..|a + "s"| - 1] == a && (b + "s")[..|b + "s"| - 1] == b;
    ShowNatIsInjective(p.restart.delay, q.restart.delay);
    ShowNatIsInjective(p.restart.interval, q.restart.interval);
    ShowNatIsInjective(p.restart.burst, q.restart.burst);
  }

  lemma PropertiesAgree(u: Unit, keys: seq<string>, p: Profile, q: Profile)
    requires (forall key <- keys :: key in p.properties && key in q.properties)
    requires (forall key <- p.properties.Keys + q.properties.Keys :: key in keys)
    requires KeysConfigured(u, keys, p) && KeysConfigured(u, keys, q)
    ensures p.properties == q.properties
  {
    forall key | key in keys ensures p.properties[key] == q.properties[key] {
      assert SettingOf(Property(p, key)) == SettingOf(Property(q, key));
    }
    assert p.properties.Keys == q.properties.Keys;
  }

  /**
   * Two accepted profiles compile to the same content exactly when they set the same things: the drop-in
   * text determines every property and limit.
   */
  lemma ContentIsTheSettings(p: Profile, base: Baseline, now: Time, q: Profile, base': Baseline, now': Time)
    requires Accepts(p, base, now) && Accepts(q, base', now')
    ensures Content(p) == Content(q) <==> SameSettings(p, q)
  {
    if SameSettings(p, q) {
      SameLines(KEYS, p, q);
    }
    if Content(p) == Content(q) {
      var inherited := Unit(map[], map[]);
      InstalledIsConfigured(p, base, now, inherited);
      InstalledIsConfigured(q, base', now', inherited);
      var u := Installed(inherited, Content(p));
      LimitsAgree(u, p, q);
      PropertiesAgree(u, KEYS, p, q);
    }
  }

  /** A record removes exactly the content it was made with. */
  lemma RemovesItsContent(artifact: Artifact, path: string, content: string, current: string)
    requires path == DropInPath(artifact.unit)
    requires artifact.candidate == Candidate(path, content) && artifact.rollback == Hardening.Rollback(path, content)
    ensures MayRemove(artifact, current) <==> current == content
  {
  }

  /**
   * The record of an accepted profile may remove the compiled content and no edited file; of what was
   * compiled for another accepted profile, only what sets the very same properties and limits.
   */
  lemma RollbackRemovesOnlyWhatWasReviewed(p: Profile, base: Baseline, now: Time, expiry: Time, current: string,
                                           q: Profile, base': Baseline, now': Time)
    requires Accepts(p, base, now) && Accepts(q, base', now')
    ensures var artifact := ArtifactOf(p, base, expiry);
            && (MayRemove(artifact, current) <==> current == artifact.candidate.content)
            && (MayRemove(artifact, Content(q)) <==> SameSettings(p, q))
  {
    var artifact := ArtifactOf(p, base, expiry);
    RemovesItsContent(artifact, DropInPath(p.unit), Content(p), current);
    RemovesItsContent(artifact, DropInPath(p.unit), Content(p), Content(q));
    ContentIsTheSettings(p, base, now, q, base', now');
  }
}
