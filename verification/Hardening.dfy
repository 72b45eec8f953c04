/**
 * The compiler of hardening_plan.py: a reviewed service profile becomes a systemd drop-in and the
 * posture profile that later checks the unit it was installed for.
 */
module Hardening {
  import opened Common
  import opened Durations
  import opened Strings
  import P = Posture

  datatype Value = Plain(text: string) | Many(items: seq<string>)

  datatype Exception = Exception(owner: string, changeRef: string, reasonRef: string, reviewUntil: Time)

  datatype TaskBudget = TaskBudget(max: int, headroom: real, basis: string)

  datatype Restart = Restart(delay: int, interval: int, burst: int)

  datatype Profile = Profile(
    unit: string, references: seq<string>, reviewUntil: Time, properties: map<string, Value>,
    exceptions: map<string, Exception>, rootException: Option<Exception>, capabilityReasons: map<string, string>,
    persistence: seq<string>, checks: seq<string>, budget: TaskBudget, restart: Restart)

  datatype Baseline = Baseline(unit: string, failed: int, missing: seq<string>, span: real, phases: map<string, int>,
                               peak: int)

  datatype Candidate = Candidate(path: string, content: string)

  /** What a rollback may remove: the content stands for its digest. */
  datatype Rollback = Rollback(path: string, onlyIf: string)

  /** The compiled record; the digests of the profile and the baseline are represented by them. */
  datatype Artifact = Artifact(
    unit: string, profile: Profile, baseline: Baseline, candidate: Candidate, rollback: Rollback, checks: seq<string>,
    posture: P.Profile)

  const SWITCHES := ["LockPersonality", "NoNewPrivileges", "PrivateDevices", "PrivateTmp", "ProtectControlGroups",
                     "ProtectKernelModules", "ProtectKernelTunables", "RestrictSUIDSGID"]

  const IDENTITIES := ["Group", "User"]

  /** The properties a unit adds to across drop-ins unless they are first reset. */
  const LISTS := ["AmbientCapabilities", "CapabilityBoundingSet", "ReadWritePaths", "RestrictAddressFamilies"]

  /** Every property of a complete profile, in the order they are written out. */
  const KEYS := ["AmbientCapabilities", "CapabilityBoundingSet", "Group", "LockPersonality", "NoNewPrivileges",
                 "PrivateDevices", "PrivateTmp", "ProtectControlGroups", "ProtectHome", "ProtectKernelModules",
                 "ProtectKernelTunables", "ProtectSystem", "ReadWritePaths", "RestrictAddressFamilies",
                 "RestrictNamespaces", "RestrictSUIDSGID", "UMask", "User"]

  const PHASES := ["startup", "normal", "peak", "recovery"]

  // ---------- the accepted profiles ----------

  predicate UnixName(s: string) {
    0 < |s| <= 32 && ('a' <= s[0] <= 'z' || s[0] == '_')
    && forall c <- s :: 'a' <= c <= 'z' || IsDigit(c) || c in "_-"
  }

  predicate Capability(s: string) {
    |s| > 4 && s[..4] == "CAP_" && forall c <- s[4..] :: 'A' <= c <= 'Z' || IsDigit(c) || c == '_'
  }

  predicate PathChar(c: char) {
    'A' <= c <= 'Z' || 'a' <= c <= 'z' || IsDigit(c) || c in "_./-"
  }

  /** The parts of a path between slashes. */
  function Parts(s: string): (parts: seq<string>)
    ensures parts != []
  {
    if s == "" then [""]
    else
      var rest := Parts(s[1..]);
      if s[0] == '/' then [""] + rest else [[s[0]] + rest[0]] + rest[1..]
  }

  const BROAD :=
      {"/", "/etc", "/usr", "/var", "/home", "/root", "/run", "/tmp", "/opt", "/srv", "/proc", "/sys", "/dev",
                  "/var/lib", "/var/log", "/var/cache"}

  /** A path in normal form, in which two leading slashes are kept: no empty, "." or ".." part. */
  predicate NormalPath(s: string) {
    var rest := if "//" <= s && !("///" <= s) then s[2..] else if "/" <= s then s[1..] else s;
    s == "//" || forall part <- Parts(rest) :: part !in {"", ".", ".."}
  }

  predicate ValidPath(s: string) {
    |s| > 1 && s[0] == '/' && (forall c <- s :: PathChar(c)) && NormalPath(s) && s !in BROAD
  }

  predicate Unexpired(e: Exception, now: Time) {
    Token(e.owner) && Token(e.changeRef) && Token(e.reasonRef) && e.reviewUntil > now
  }

  predicate Excepted(p: Profile, key: string, now: Time) {
    key in p.exceptions && Unexpired(p.exceptions[key], now)
  }

  function Property(p: Profile, key: string): Value {
    if key in p.properties then p.properties[key] else Plain("")
  }

  function Items(v: Value): seq<string> {
    if v.Many? then v.items else []
  }

  predicate SwitchOk(p: Profile, key: string, now: Time) {
    Property(p, key) == Plain("yes") || (Property(p, key) == Plain("no") && Excepted(p, key, now))
  }

  predicate IdentityOk(p: Profile, key: string) {
    Property(p, key).Plain? && UnixName(Property(p, key).text)
  }

  predicate Distinct(items: seq<string>) {
    forall i, j :: 0 <= i < j < |items| ==> items[i] != items[j]
  }

  predicate ListOk(p: Profile, key: string) {
    Property(p, key).Many? && |Property(p, key).items| <= 32 && Distinct(Property(p, key).items)
  }

  const NAMESPACES := {"cgroup", "ipc", "net", "mnt", "pid", "user", "uts"}

  const FAMILIES := {"AF_UNIX", "AF_INET", "AF_INET6", "AF_NETLINK"}

  predicate NamespacesOk(p: Profile, v: Value, now: Time) {
    || v == Plain("yes")
    || (v.Many? && v.items != [] && (forall name <- v.items :: name in NAMESPACES)
       && Excepted(p, "RestrictNamespaces", now))
  }

  predicate CapabilitiesOk(p: Profile, bounding: seq<string>, ambient: seq<string>) {
    && (forall c <- bounding :: Capability(c)) && (forall c <- ambient :: Capability(c))
    && (forall c <- ambient :: c in bounding)
    && (forall c <- bounding :: c in p.capabilityReasons) && (forall c <- p.capabilityReasons.Keys :: c in bounding)
    && (forall c <- p.capabilityReasons.Keys :: Token(p.capabilityReasons[c]))
  }

  predicate Complete(p: Profile) {
    (forall key <- KEYS :: key in p.properties) && (forall key <- p.properties.Keys :: key in KEYS)
  }

  predicate IdentitiesOk(p: Profile, now: Time) {
    && (forall key <- IDENTITIES :: IdentityOk(p, key))
    && (Property(p, "User") == Plain("root") || Property(p, "Group") == Plain("root") ==>
          p.rootException.Some? && Unexpired(p.rootException.value, now))
  }

  predicate FilesOk(p: Profile) {
    && Property(p, "ProtectSystem") == Plain("strict")
    && Property(p, "ProtectHome") in {Plain("yes"), Plain("read-only"), Plain("tmpfs")}
    && Property(p, "UMask") == Plain("0077")
  }

  predicate ListsOk(p: Profile) {
    var families := Items(Property(p, "RestrictAddressFamilies"));
    && (forall key <- LISTS :: ListOk(p, key))
    && CapabilitiesOk(p, Items(Property(p, "CapabilityBoundingSet")), Items(Property(p, "AmbientCapabilities")))
    && families != [] && (forall family <- families :: family in FAMILIES)
    && (forall path <- Items(Property(p, "ReadWritePaths")) :: ValidPath(path))
  }

  predicate PropertiesOk(p: Profile, now: Time) {
    && Complete(p) && (forall key <- SWITCHES :: SwitchOk(p, key, now)) && IdentitiesOk(p, now) && FilesOk(p)
    && NamespacesOk(p, Property(p, "RestrictNamespaces"), now) && ListsOk(p)
  }

  predicate BudgetOk(b: TaskBudget, base: Baseline) {
    && b.max >= 1 && 0.25 <= b.headroom <= 4.0 && Token(b.basis)
    && b.max as real >= base.peak as real * (1.0 + b.headroom)
  }

  predicate BaselineOk(base: Baseline, unit: string) {
    && base.unit == unit && base.failed == 0 && base.missing == [] && base.span >= 300.0 && base.peak >= 1
    && (forall phase <- PHASES :: phase in base.phases && base.phases[phase] >= 3)
  }

  predicate RestartOk(r: Restart): (ok: bool)
    ensures ok ==> r.interval > 0
  {
    5 <= r.delay <= 3600 && 1 <= r.burst <= 10 && r.delay * r.burst <= r.interval <= 86400
  }

  predicate Accepts(p: Profile, base: Baseline, now: Time) {
    && UnitName(p.unit) && |p.references| == 4 && (forall reference <- p.references :: Token(reference))
    && p.reviewUntil > now
    && PropertiesOk(p, now)
    && p.persistence != [] && (forall path <- p.persistence :: ValidPath(path))
    && p.checks != [] && (forall check <- p.checks :: Token(check))
    && BaselineOk(base, p.unit) && BudgetOk(p.budget, base) && RestartOk(p.restart)
  }

  // ---------- the drop-in ----------

  function Assignment(key: string, value: string): string {
    key + "=" + value
  }

  /** A list is reset before it is set; other properties are just set. */
  function PropertyLines(key: string, v: Value): seq<string> {
    match v
    case Plain(text) => [Assignment(key, text)]
    case Many(items) => [Assignment(key, "")] + if items == [] then [] else [Assignment(key, JoinWords(items))]
  }

  function AllLines(keys: seq<string>, p: Profile): seq<string> {
    if keys == [] then [] else PropertyLines(keys[0], Property(p, keys[0])) + AllLines(keys[1..], p)
  }

  const COMMENT := "# Reviewed candidate; " + "install only in the " + "approved per-service window."

  function Header(r: Restart): seq<string>
    requires RestartOk(r)
  {
    [COMMENT, "[Unit]",
     Assignment("StartLimitIntervalSec", ShowNat(r.interval)), Assignment("StartLimitBurst", ShowNat(r.burst)), "",
         "[Service]"]
  }

  function Footer(max: nat, r: Restart): seq<string>
    requires RestartOk(r)
  {
    [Assignment("TasksMax", ShowNat(max)), Assignment("RestartSec", ShowNat(r.delay) + "s"), ""]
  }

  function Lines(p: Profile): seq<string>
    requires RestartOk(p.restart) && p.budget.max >= 1
  {
    Header(p.restart) + AllLines(KEYS, p) + Footer(p.budget.max, p.restart)
  }

  /** Every review date the profile holds: its own, and those of the exceptions it lists. */
  predicate Reviewed(p: Profile, time: Time) {
    || time == p.reviewUntil
    || (exists key <- p.exceptions.Keys :: p.exceptions[key].reviewUntil == time)
    || (p.rootException.Some? && p.rootException.value.reviewUntil == time)
  }

  predicate NoneEarlier(p: Profile, time: Time) {
    && time <= p.reviewUntil && (forall key <- p.exceptions.Keys :: time <= p.exceptions[key].reviewUntil)
    && (p.rootException.Some? ==> time <= p.rootException.value.reviewUntil)
  }

  /** The review date the posture profile expires at. */
  predicate Expiry(p: Profile, time: Time) {
    Reviewed(p, time) && NoneEarlier(p, time)
  }

  method EarliestReview(p: Profile) returns (time: Time)
    ensures Expiry(p, time)
  {
    time := p.reviewUntil;
    if p.rootException.Some? && p.rootException.value.reviewUntil < time {
      time := p.rootException.value.reviewUntil;
    }
    var left := p.exceptions.Keys;
    while left != {}
      invariant left <= p.exceptions.Keys && Reviewed(p, time)
      invariant time <= p.reviewUntil && (p.rootException.Some? ==> time <= p.rootException.value.reviewUntil)
      invariant forall key <- p.exceptions.Keys - left :: time <= p.exceptions[key].reviewUntil
      decreases |left|
    {
      var key :| key in left;
      if p.exceptions[key].reviewUntil < time {
        time := p.exceptions[key].reviewUntil;
      }
      left := left - {key};
    }
    assert p.exceptions.Keys - left == p.exceptions.Keys;
  }

  function ExpectedOf(v: Value): P.Expected {
    match v
    case Plain(text) => P.Exact(text)
    case Many(items) => P.Set(items)
  }

  function PostureOf(p: Profile, expiry: Time): P.Profile
    requires RestartOk(p.restart)
  {
    P.Profile(p.unit, Some(expiry),
              (map key <- p.properties :: ExpectedOf(p.properties[key]))
                ["RestartUSec" := P.Number(p.restart.delay)]["StartLimitBurst" := P.Number(p.restart.burst)]
                ["StartLimitIntervalUSec" := P.Number(p.restart.interval)],
              p.persistence,
              p.rootException.Some?,
              Some(P.Budget(p.budget.max, p.budget.basis, 0.8)))
  }

  function DropInPath(unit: string): string {
    "/etc/systemd/system/" + unit + ".d/90-orkestr-reviewed-hardening.conf"
  }

  function Content(p: Profile): string
    requires RestartOk(p.restart) && p.budget.max >= 1
  {
    Join(Lines(p))
  }

  function ArtifactOf(p: Profile, base: Baseline, expiry: Time): Artifact
    requires RestartOk(p.restart) && p.budget.max >= 1
  {
    var path, content := DropInPath(p.unit), Content(p);
    Artifact(p.unit, p, base, Candidate(path, content), Rollback(path, content), p.checks, PostureOf(p, expiry))
  }

  /** compile_profile: everything is checked before any line is written. */
  method Compile(p: Profile, base: Baseline, now: Time) returns (r: Option<Artifact>)
    ensures r.Some? <==> Accepts(p, base, now)
    ensures r.Some? ==> exists expiry :: Expiry(p, expiry) && r.value == ArtifactOf(p, base, expiry)
  {
    if !Accepts(p, base, now) {
      return None;
    }
    var written := WriteProperties(KEYS, p);
    var content := Join(Header(p.restart) + written + Footer(p.budget.max, p.restart));
    var path := DropInPath(p.unit);
    var expiry := EarliestReview(p);
    return Some(Artifact(p.unit, p, base, Candidate(path, content), Rollback(path, content), p.checks,
        PostureOf(p, expiry)));
  }

  method WriteProperties(keys: seq<string>, p: Profile) returns (lines: seq<string>)
    ensures lines == AllLines(keys, p)
  {
    lines := [];
    var i := 0;
    while i < |keys|
      invariant 0 <= i <= |keys|
      invariant lines + AllLines(keys[i..], p) == AllLines(keys, p)
    {
      lines := lines + PropertyLines(keys[i], Property(p, keys[i]));
      i := i + 1;
    }
  }

  /** verify_rollback: the record is for its unit, and the installed content is still the compiled one. */
  predicate MayRemove(artifact: Artifact, current: string) {
    && artifact.candidate.path == DropInPath(artifact.unit) == artifact.rollback.path
    && current == artifact.rollback.onlyIf
  }
}
