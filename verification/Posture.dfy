/** The posture check of systemd_posture.py: displayed unit properties against a reviewed profile. */
module Posture {
  import opened Common
  import opened Durations
  import opened Strings

  /** An expected property: a set of words, literal text, or a whole number. */
  datatype Expected = Set(items: seq<string>) | Exact(text: string) | Number(n: nat)

  datatype Budget = Budget(max: int, basis: string, warning: real)

  datatype Profile = Profile(unit: string, reviewUntil: Option<Time>, properties: map<string, Expected>,
                             paths: seq<string>,
                             rootException: bool, budget: Option<Budget>)

  datatype Finding =
    | ReviewExpired | NotLoaded | NotActive | Drift(key: string) | UndocumentedRoot | BudgetUnreviewed
    | CountsUnavailable | LimitDrift | Pressure

  datatype Error = UnlistedProperty | BadBudget

  const PROPERTIES := {
    "Id", "LoadState", "ActiveState", "User", "Group", "TasksCurrent", "TasksMax", "MemoryCurrent", "NoNewPrivileges",
    "PrivateTmp", "PrivateDevices", "ProtectSystem", "ProtectHome", "ProtectKernelTunables", "ProtectKernelModules",
    "ProtectControlGroups", "RestrictSUIDSGID", "LockPersonality", "UMask", "CapabilityBoundingSet",
    "AmbientCapabilities", "RestartUSec", "StartLimitBurst", "StartLimitIntervalUSec", "RestrictAddressFamilies",
    "RestrictNamespaces", "ReadWritePaths"}

  const CAPABILITIES := {"CapabilityBoundingSet", "AmbientCapabilities"}

  const DURATIONS := {"RestartUSec", "StartLimitIntervalUSec"}

  function Find(actual: map<string, string>, key: string): Option<string> {
    if key in actual then Some(actual[key]) else None
  }

  function Lowered(words: seq<string>): set<string> {
    set word <- words :: Lower(word)
  }

  function AsSet(words: seq<string>): set<string> {
    set word <- words
  }

  predicate PropertyMatches(key: string, actual: Option<string>, expected: Expected) {
    && actual.Some?
    && match expected
       case Set(items) =>
         if key in CAPABILITIES then Lowered(Words(actual.value)) == Lowered(items)
         else AsSet(Words(actual.value)) == AsSet(items)
       case Number(n) =>
         if key in DURATIONS then ReadDuration(actual.value) == Some(n as real) else actual.value == ShowNat(n)
       case Exact(text) => actual.value == text
  }

  /** int(text) of a displayed task count; anything but digits is not a count. */
  function ReadCount(text: Option<string>): Option<nat> {
    if text.Some? && text.value != "" && Digits(text.value) then Some(ReadNat(text.value)) else None
  }

  predicate ValidBudget(b: Budget) {
    b.max >= 1 && b.basis != "" && 0.0 < b.warning < 1.0
  }

  function TaskFindings(actual: map<string, string>, b: Budget): set<Finding> {
    var current, configured := ReadCount(Find(actual, "TasksCurrent")), ReadCount(Find(actual, "TasksMax"));
    if current.None? || configured.None? || configured.value < 1 then {CountsUnavailable}
    else
      (if configured.value != b.max then {LimitDrift} else {})
      + (if current.value as real >= b.max as real * b.warning then {Pressure} else {})
  }

  function BudgetFindings(actual: map<string, string>, budget: Option<Budget>): set<Finding> {
    if budget.None? then {BudgetUnreviewed} else TaskFindings(actual, budget.value)
  }

  function LifeFindings(actual: map<string, string>, p: Profile, now: Time): set<Finding> {
    (if p.reviewUntil.Some? && p.reviewUntil.value <= now then {ReviewExpired} else {})
    + (if Find(actual, "LoadState") != Some("loaded") then {NotLoaded} else {})
    + (if Find(actual, "ActiveState") != Some("active") then {NotActive} else {})
  }

  function DriftFindings(actual: map<string, string>, properties: map<string, Expected>): set<Finding> {
    set key <- properties.Keys | !PropertyMatches(key, Find(actual, key), properties[key]) :: Drift(key)
  }

  predicate RootIdentity(actual: map<string, string>) {
    var user := Find(actual, "User");
    user.None? || user.value in {"", "0", "root"}
  }

  predicate Checkable(p: Profile) {
    p.properties.Keys <= PROPERTIES && (p.budget.Some? ==> ValidBudget(p.budget.value))
  }

  function Findings(actual: map<string, string>, p: Profile, now: Time): set<Finding> {
    LifeFindings(actual, p, now) + DriftFindings(actual, p.properties)
    + (if RootIdentity(actual) && !p.rootException then {UndocumentedRoot} else {})
    + BudgetFindings(actual, p.budget)
  }

  /** The check itself, property by property; an unusable profile is refused. */
  method Evaluate(actual: map<string, string>, p: Profile, now: Time) returns (r: Result<set<Finding>, Error>)
    ensures r.Success? <==> Checkable(p)
    ensures r.Success? ==> r.value == Findings(actual, p, now)
    ensures r.Failure? ==> (r.error == UnlistedProperty <==> !(p.properties.Keys <= PROPERTIES))
  {
    var found: set<Finding> := {};
    if p.reviewUntil.Some? && p.reviewUntil.value <= now {
      found := found + {ReviewExpired};
    }
    if Find(actual, "LoadState") != Some("loaded") {
      found := found + {NotLoaded};
    }
    if Find(actual, "ActiveState") != Some("active") {
      found := found + {NotActive};
    }
    assert found == LifeFindings(actual, p, now);
    if !(p.properties.Keys <= PROPERTIES) {
      return Failure(UnlistedProperty);
    }
    var drift := Drifts(actual, p.properties);
    found := found + drift;
    if RootIdentity(actual) && !p.rootException {
      found := found + {UndocumentedRoot};
    }
    if p.budget.None? {
      return Success(found + {BudgetUnreviewed});
    }
    if !ValidBudget(p.budget.value) {
      return Failure(BadBudget);
    }
    return Success(found + TaskFindings(actual, p.budget.value));
  }

  method Drifts(actual: map<string, string>, properties: map<string, Expected>) returns (found: set<Finding>)
    ensures found == DriftFindings(actual, properties)
  {
    found := {};
    var left := properties.Keys;
    while left != {}
      invariant left <= properties.Keys
      invariant found
                == set key <- properties.Keys - left | !PropertyMatches(key, Find(actual, key), properties[key]) ::
                    Drift(key)
      decreases |left|
    {
      var key :| key in left;
      if !PropertyMatches(key, Find(actual, key), properties[key]) {
        found := found + {Drift(key)};
      }
      left := left - {key};
    }
    assert properties.Keys - left == properties.Keys;
  }
}
