/** A compiled profile passes its own posture evaluation on every unit its drop-in was installed for. */
module CompiledProfiles {
  import opened Common
  import opened Durations
  import opened Strings
  import opened Hardening
  import opened DropIns
  import P = Posture

  // ---------- what systemctl shows of a unit ----------

  /** A list is shown in any order, capabilities in lower case; anything else as it was set. */
  predicate ShowsSetting(key: string, s: Setting, shown: string) {
    match s
    case Scalar(text) => shown == text
    case Listing(items) => P.AsSet(Words(shown)) == if key in P.CAPABILITIES then P.Lowered(items) else P.AsSet(items)
  }

  /** A configured number of seconds, with or without its unit. */
  function Seconds(text: string): Option<nat> {
    var digits := if text != "" && text[|text| - 1] == 's' then text[..|text| - 1] else text;
    if digits != "" && Digits(digits) then Some(ReadNat(digits)) else None
  }

  predicate ShowsDuration(s: Setting, shown: string) {
    s.Scalar? && Seconds(s.text).Some? ==> shown == ShowDuration(Seconds(s.text).value)
  }

  predicate ShowsLimits(u: Unit, actual: map<string, string>) {
    && ("TasksMax" in u.service ==>
       "TasksMax" in actual && ShowsSetting("TasksMax", u.service["TasksMax"], actual["TasksMax"]))
    && ("RestartSec" in u.service ==>
       "RestartUSec" in actual && ShowsDuration(u.service["RestartSec"], actual["RestartUSec"]))
    && ("StartLimitIntervalSec" in u.limits ==>
          "StartLimitIntervalUSec" in actual
              && ShowsDuration(u.limits["StartLimitIntervalSec"], actual["StartLimitIntervalUSec"]))
    && ("StartLimitBurst" in u.limits ==>
          "StartLimitBurst" in actual
              && ShowsSetting("StartLimitBurst", u.limits["StartLimitBurst"], actual["StartLimitBurst"]))
  }

  /** `actual` is a display of the unit; what it says of other properties is free. */
  predicate Shows(u: Unit, actual: map<string, string>) {
    ShowsKeys(u, actual) && ShowsLimits(u, actual)
  }

  predicate ShowsKeys(u: Unit, actual: map<string, string>) {
    forall key <- KEYS :: key in u.service ==> key in actual && ShowsSetting(key, u.service[key], actual[key])
  }

  // ---------- no drift ----------

  lemma LoweredTwice(items: seq<string>, words: seq<string>)
    requires P.AsSet(words) == P.Lowered(items)
    ensures P.Lowered(words) == P.Lowered(items)
  {
    forall s ensures s in P.Lowered(words) <==> s in P.Lowered(items) {
      if s in P.Lowered(words) {
        var word :| word in words && Lower(word) == s;
        assert word in P.AsSet(words);
        var item :| item in items && Lower(item) == word;
        LowerTwice(item);
      }
      if s in P.Lowered(items) {
        var item :| item in items && Lower(item) == s;
        LowerTwice(item);
        assert s in P.AsSet(words);
      }
    }
  }

  lemma PropertyHolds(key: string, v: Value, shown: string)
    requires ShowsSetting(key, SettingOf(v), shown)
    ensures P.PropertyMatches(key, Some(shown), ExpectedOf(v))
  {
    if v.Many? && key in P.CAPABILITIES {
      LoweredTwice(v.items, Words(shown));
    }
  }

  lemma DurationHolds(n: nat, text: string, shown: string)
    requires n > 0 && (text == ShowNat(n) || text == ShowNat(n) + "s") && ShowsDuration(Scalar(text), shown)
    ensures ReadDuration(shown) == Some(n as real)
  {
    ReadShowNat(n);
    var digits := ShowNat(n);
    assert digits[|digits| - 1] != 's' by {
      assert '0' <= digits[|digits| - 1] <= '9';
    }
    assert (digits + "s")[..|digits + "s"| - 1] == digits;
    assert Seconds(text) == Some(n);
    DurationReadsBack(n);
  }

  lemma LimitsHold(max: nat, delay: nat, interval: nat, burst: nat, u: Unit, actual: map<string, string>)
    requires delay > 0 && interval > 0 && LimitsConfigured(u, max, delay, interval, burst) && ShowsLimits(u, actual)
    ensures P.Find(actual, "TasksMax") == Some(ShowNat(max))
    ensures P.PropertyMatches("StartLimitBurst", P.Find(actual, "StartLimitBurst"), P.Number(burst))
    ensures P.PropertyMatches("RestartUSec", P.Find(actual, "RestartUSec"), P.Number(delay))
    ensures P.PropertyMatches("StartLimitIntervalUSec", P.Find(actual, "StartLimitIntervalUSec"), P.Number(interval))
  {
    DurationHolds(delay, ShowNat(delay) + "s", actual["RestartUSec"]);
    DurationHolds(interval, ShowNat(interval), actual["StartLimitIntervalUSec"]);
    BurstIsNoDuration();
  }

  lemma BurstIsNoDuration()
    ensures "StartLimitBurst" !in P.DURATIONS && "RestartUSec" in P.DURATIONS && "StartLimitIntervalUSec" in P.DURATIONS
  {
  }

  lemma KeysHold(p: Profile, u: Unit, actual: map<string, string>)
    requires Complete(p) && KeysConfigured(u, KEYS, p) && ShowsKeys(u, actual)
    ensures forall key <- p.properties.Keys ::
            P.PropertyMatches(key, P.Find(actual, key), ExpectedOf(p.properties[key]))
  {
    forall key | key in p.properties ensures P.PropertyMatches(key, P.Find(actual, key),
        ExpectedOf(p.properties[key])) {
      PropertyHolds(key, Property(p, key), actual[key]);
    }
  }

  lemma NoDrift(actual: map<string, string>, properties: map<string, P.Expected>)
    requires forall key <- properties.Keys :: P.PropertyMatches(key, P.Find(actual, key), properties[key])
    ensures P.DriftFindings(actual, properties) == {}
  {
  }

  lemma ExtendedMatches(actual: map<string, string>, properties: map<string, P.Expected>, key: string,
                        expected: P.Expected)
    requires forall k <- properties.Keys :: P.PropertyMatches(k, P.Find(actual, k), properties[k])
    requires P.PropertyMatches(key, P.Find(actual, key), expected)
    ensures forall k <- properties[key := expected].Keys ::
            P.PropertyMatches(k, P.Find(actual, k), properties[key := expected][k])
  {
  }

  lemma NothingDrifts(p: Profile, expiry: Time, u: Unit, actual: map<string, string>)
    requires RestartOk(p.restart) && p.budget.max >= 1 && Complete(p) && Configured(u, p) && Shows(u, actual)
    ensures P.DriftFindings(actual, PostureOf(p, expiry).properties) == {}
  {
    LimitsHold(p.budget.max, p.restart.delay, p.restart.interval, p.restart.burst, u, actual);
    KeysHold(p, u, actual);
    var base := map key <- p.properties :: ExpectedOf(p.properties[key]);
    ExtendedMatches(actual, base, "RestartUSec", P.Number(p.restart.delay));
    var more := base["RestartUSec" := P.Number(p.restart.delay)];
    ExtendedMatches(actual, more, "StartLimitBurst", P.Number(p.restart.burst));
    ExtendedMatches(actual, more["StartLimitBurst" := P.Number(p.restart.burst)], "StartLimitIntervalUSec",
        P.Number(p.restart.interval));
    NoDrift(actual, PostureOf(p, expiry).properties);
  }

  // ---------- the other findings ----------

  lemma UserIsReviewed(p: Profile, now: Time, u: Unit, actual: map<string, string>)
    requires IdentitiesOk(p, now) && KeysConfigured(u, KEYS, p) && ShowsKeys(u, actual)
    ensures P.RootIdentity(actual) ==> p.rootException.Some?
  {
    assert "User" in KEYS && IdentityOk(p, "User");
    var name := Property(p, "User").text;
    assert u.service["User"] == Scalar(name);
    assert name != "0" by {
      assert "0"[0] == '0';
    }
  }

  /** Task findings that a compiled budget leaves possible. */
  function LoadFindings(actual: map<string, string>, max: int): set<P.Finding> {
    var current := P.ReadCount(P.Find(actual, "TasksCurrent"));
    if current.None? then {P.CountsUnavailable}
    else if current.value as real >= max as real * 0.8 then {P.Pressure}
    else {}
  }

  lemma BudgetHolds(p: Profile, actual: map<string, string>)
    requires p.budget.max >= 1 && P.Find(actual, "TasksMax") == Some(ShowNat(p.budget.max))
    ensures P.TaskFindings(actual, P.Budget(p.budget.max, p.budget.basis, 0.8)) == LoadFindings(actual, p.budget.max)
  {
    ReadShowNat(p.budget.max);
  }

  lemma PostureIsCheckable(p: Profile, expiry: Time)
    requires RestartOk(p.restart) && p.budget.max >= 1 && Token(p.budget.basis) && Complete(p)
    ensures P.Checkable(PostureOf(p, expiry))
  {
    KeysAreListed();
  }

  lemma KeysAreListed()
    ensures forall key <- KEYS :: key in P.PROPERTIES
    ensures {"RestartUSec", "StartLimitBurst", "StartLimitIntervalUSec"} <= P.PROPERTIES
  {
  }

  lemma ConfiguredPasses(p: Profile, now: Time, expiry: Time, u: Unit, actual: map<string, string>, later: Time)
    requires RestartOk(p.restart) && p.budget.max >= 1 && Token(p.budget.basis) && Complete(p) && IdentitiesOk(p, now)
    requires Configured(u, p) && Shows(u, actual)
    ensures var posture := PostureOf(p, expiry);
            && P.Checkable(posture)
            && P.Findings(actual, posture, later)
               == P.LifeFindings(actual, posture, later) + LoadFindings(actual, p.budget.max)
  {
    PostureIsCheckable(p, expiry);
    NothingDrifts(p, expiry, u, actual);
    UserIsReviewed(p, now, u, actual);
    ConfiguredBudgetHolds(p, u, actual);
  }

  lemma ConfiguredBudgetHolds(p: Profile, u: Unit, actual: map<string, string>)
    requires RestartOk(p.restart) && p.budget.max >= 1 && Token(p.budget.basis)
    requires Configured(u, p) && Shows(u, actual)
    ensures P.TaskFindings(actual, P.Budget(p.budget.max, p.budget.basis, 0.8)) == LoadFindings(actual, p.budget.max)
  {
    LimitsHold(p.budget.max, p.restart.delay, p.restart.interval, p.restart.burst, u, actual);
    BudgetHolds(p, actual);
  }

  /**
   * The compiler meets the evaluation: for every accepted profile, every unit the drop-in may be installed
   * over and every display of the result, the posture check finds nothing but an expired review, a unit
   * that is not loaded or running, a missing task count, or task pressure.
   */
  lemma CompiledProfilePasses(p: Profile, base: Baseline, now: Time, expiry: Time, inherited: Unit,
                              actual: map<string, string>, later: Time)
    requires Accepts(p, base, now) && Expiry(p, expiry)
    requires Shows(Installed(inherited, Content(p)), actual)
    ensures var posture := ArtifactOf(p, base, expiry).posture;
            && P.Checkable(posture)
            && P.Findings(actual, posture, later)
               == P.LifeFindings(actual, posture, later) + LoadFindings(actual, p.budget.max)
  {
    InstalledIsConfigured(p, base, now, inherited);
    AcceptedIsComplete(p, base, now);
    ConfiguredPasses(p, now, expiry, Installed(inherited, Content(p)), actual, later);
  }

  lemma AcceptedIsComplete(p: Profile, base: Baseline, now: Time)
    requires Accepts(p, base, now)
    ensures RestartOk(p.restart) && p.budget.max >= 1 && Token(p.budget.basis) && Complete(p) && IdentitiesOk(p, now)
  {
  }

  /** A property value that the compiler takes only with an exception. */
  predicate NeedsException(p: Profile, key: string) {
    (key in SWITCHES || key == "RestrictNamespaces") && Property(p, key) != Plain("yes")
  }

  predicate NeedsRootException(p: Profile) {
    Property(p, "User") == Plain("root") || Property(p, "Group") == Plain("root")
  }

  /** A listed exception that no property needs, and whose review is due. */
  predicate StaleExceptionListed(p: Profile, now: Time) {
    || (exists key <- p.exceptions.Keys :: !NeedsException(p, key) && p.exceptions[key].reviewUntil <= now)
    || (p.rootException.Some? && !NeedsRootException(p) && p.rootException.value.reviewUntil <= now)
  }

  predicate NeededAreCurrent(p: Profile, now: Time) {
    && (forall key <- p.exceptions.Keys :: NeedsException(p, key) ==> p.exceptions[key].reviewUntil > now)
    && (p.rootException.Some? && NeedsRootException(p) ==> p.rootException.value.reviewUntil > now)
  }

  /** The compiler looks at the exceptions that are needed, and only at those. */
  lemma AcceptedAreCurrent(p: Profile, base: Baseline, now: Time)
    requires Accepts(p, base, now)
    ensures p.reviewUntil > now && NeededAreCurrent(p, now) && RestartOk(p.restart)
  {
    forall key | key in p.exceptions.Keys && NeedsException(p, key) ensures Excepted(p, key, now) {
      if key in SWITCHES { assert SwitchOk(p, key, now); }
    }
  }

  lemma ExpiredIffStale(p: Profile, now: Time, expiry: Time)
    requires p.reviewUntil > now && NeededAreCurrent(p, now) && Expiry(p, expiry)
    ensures expiry <= now <==> StaleExceptionListed(p, now)
  {
  }

  /**
   * A profile that the compiler accepts may come with a posture that has expired already: exactly when it
   * lists an exception that it does not need and whose review is due. The compiler checks the exceptions
   * that are needed, and takes the expiry from all that are listed.
   */
  lemma PostureMayBeBornExpired(p: Profile, base: Baseline, now: Time, expiry: Time, actual: map<string, string>)
    requires Accepts(p, base, now) && Expiry(p, expiry)
    ensures P.ReviewExpired in P.LifeFindings(actual, PostureOf(p, expiry), now) <==> StaleExceptionListed(p, now)
  {
    AcceptedAreCurrent(p, base, now);
    PostureExpires(p, now, expiry, actual);
  }

  lemma PostureExpires(p: Profile, now: Time, expiry: Time, actual: map<string, string>)
    requires p.reviewUntil > now && NeededAreCurrent(p, now) && RestartOk(p.restart) && Expiry(p, expiry)
    ensures P.ReviewExpired in P.LifeFindings(actual, PostureOf(p, expiry), now) <==> StaleExceptionListed(p, now)
  {
    ExpiredIffStale(p, now, expiry);
    ExpiredIsFound(PostureOf(p, expiry), now, expiry, actual);
  }

  lemma ExpiredIsFound(posture: P.Profile, now: Time, expiry: Time, actual: map<string, string>)
    requires posture.reviewUntil == Some(expiry)
    ensures P.ReviewExpired in P.LifeFindings(actual, posture, now) <==> expiry <= now
  {
  }

  /** A compiled posture's warning of task pressure never fires below the peak that was measured. */
  lemma WarningClearsThePeak(b: TaskBudget, base: Baseline, actual: map<string, string>)
    requires BudgetOk(b, base) && base.peak >= 1 && P.Pressure in LoadFindings(actual, b.max)
    ensures P.ReadCount(P.Find(actual, "TasksCurrent")).value >= base.peak
  {
    HeadroomCovers(b.max as real, base.peak as real, b.headroom);
  }

  lemma HeadroomCovers(max: real, peak: real, headroom: real)
    requires headroom >= 0.25 && peak >= 0.0 && max >= peak * (1.0 + headroom)
    ensures max * 0.8 >= peak
  {
    assert peak * (1.0 + headroom) == peak + peak * headroom;
    assert peak * headroom >= peak * 0.25;
  }

  // ---------- displays and profiles exist ----------

  function LowerAll(words: seq<string>): seq<string> {
    seq(|words|, i requires 0 <= i < |words| => Lower(words[i]))
  }

  /** One way to show a setting: its words in order, capabilities in lower case. */
  function Shown(key: string, s: Setting): string {
    match s
    case Scalar(text) => text
    case Listing(items) => JoinWords(if key in P.CAPABILITIES then LowerAll(items) else items)
  }

  lemma LowerKeepsWords(words: seq<string>)
    requires forall word <- words :: Word(word)
    ensures (forall word <- LowerAll(words) :: Word(word)) && P.AsSet(LowerAll(words)) == P.Lowered(words)
  {
    forall word | word in LowerAll(words) ensures Word(word) {
      var i :| 0 <= i < |words| && LowerAll(words)[i] == word;
      assert Word(words[i]);
      forall c | c in word ensures !Blank(c) {
        var j :| 0 <= j < |word| && word[j] == c;
        assert words[i][j] in words[i];
      }
    }
    forall s ensures s in P.AsSet(LowerAll(words)) <==> s in P.Lowered(words) {
      if s in P.AsSet(LowerAll(words)) {
        var i :| 0 <= i < |words| && LowerAll(words)[i] == s;
      }
      if s in P.Lowered(words) {
        var word :| word in words && Lower(word) == s;
        var i :| 0 <= i < |words| && words[i] == word;
        assert LowerAll(words)[i] == s;
      }
    }
  }

  lemma ShownIsShown(key: string, v: Value)
    requires Fits(key, v)
    ensures ShowsSetting(key, SettingOf(v), Shown(key, SettingOf(v)))
  {
    if v.Many? {
      if key in P.CAPABILITIES {
        LowerKeepsWords(v.items);
        WordsJoin(LowerAll(v.items));
      } else {
        WordsJoin(v.items);
      }
    }
  }

  /** One display of a configured unit. */
  function Display(p: Profile, keys: seq<string>): map<string, string>
    requires RestartOk(p.restart) && p.budget.max >= 1
  {
    (map key | key in keys :: Shown(key, SettingOf(Property(p, key))))
      ["TasksMax" := ShowNat(p.budget.max)]["RestartUSec" := ShowDuration(p.restart.delay)]
      ["StartLimitIntervalUSec" := ShowDuration(p.restart.interval)]["StartLimitBurst" := ShowNat(p.restart.burst)]
  }

  lemma TaskKeysAreOthers()
    ensures "TasksMax" !in KEYS && "RestartUSec" !in KEYS
  {
  }

  lemma StartKeysAreOthers()
    ensures "StartLimitIntervalUSec" !in KEYS && "StartLimitBurst" !in KEYS
  {
  }

  lemma SecondsOf(n: nat)
    ensures Seconds(ShowNat(n)) == Some(n) && Seconds(ShowNat(n) + "s") == Some(n)
  {
    ReadShowNat(n);
    var digits := ShowNat(n);
    assert '0' <= digits[|digits| - 1] <= '9';
    assert (digits + "s")[..|digits + "s"| - 1] == digits;
  }

  lemma DisplayShowsKeys(p: Profile, keys: seq<string>, u: Unit)
    requires RestartOk(p.restart) && p.budget.max >= 1 && KeysConfigured(u, keys, p)
    requires forall key <- keys :: Fits(key, Property(p, key))
    requires forall key <- keys :: key !in {"TasksMax", "RestartUSec", "StartLimitIntervalUSec", "StartLimitBurst"}
    ensures forall key <- keys :: key in Display(p, keys) && ShowsSetting(key, u.service[key], Display(p, keys)[key])
  {
    forall key | key in keys ensures key in Display(p, keys)
        && ShowsSetting(key, u.service[key], Display(p, keys)[key]) {
      ShownIsShown(key, Property(p, key));
    }
  }

  /** The four limits of a display, whatever else it shows. */
  predicate LimitsShown(actual: map<string, string>, max: nat, delay: nat, interval: nat, burst: nat) {
    && P.Find(actual, "TasksMax") == Some(ShowNat(max)) && P.Find(actual, "RestartUSec") == Some(ShowDuration(delay))
    && P.Find(actual, "StartLimitIntervalUSec") == Some(ShowDuration(interval))
       && P.Find(actual, "StartLimitBurst") == Some(ShowNat(burst))
  }

  lemma DisplayLimits(p: Profile, keys: seq<string>)
    requires RestartOk(p.restart) && p.budget.max >= 1
    ensures LimitsShown(Display(p, keys), p.budget.max, p.restart.delay, p.restart.interval, p.restart.burst)
  {
    LimitKeysDiffer();
  }

  lemma LimitsShow(u: Unit, actual: map<string, string>, max: nat, delay: nat, interval: nat, burst: nat)
    requires LimitsConfigured(u, max, delay, interval, burst) && LimitsShown(actual, max, delay, interval, burst)
    ensures ShowsLimits(u, actual)
  {
    SecondsOf(delay);
    SecondsOf(interval);
  }

  lemma LimitKeysDiffer()
    ensures "TasksMax" != "RestartUSec" && "TasksMax" != "StartLimitIntervalUSec" && "TasksMax" != "StartLimitBurst"
    ensures "RestartUSec" != "StartLimitIntervalUSec" && "RestartUSec" != "StartLimitBurst"
    ensures "StartLimitIntervalUSec" != "StartLimitBurst"
  {
  }

  /** Whatever an accepted profile is installed over, the result has a display. */
  lemma DisplayExists(p: Profile, base: Baseline, now: Time, inherited: Unit)
    requires Accepts(p, base, now)
    ensures Shows(Installed(inherited, Content(p)), Display(p, KEYS))
  {
    var u := Installed(inherited, Content(p));
    InstalledIsConfigured(p, base, now, inherited);
    forall key | key in KEYS ensures Fits(key, Property(p, key)) {
      AcceptedFits(p, key, now);
    }
    TaskKeysAreOthers();
    StartKeysAreOthers();
    DisplayShowsKeys(p, KEYS, u);
    DisplayLimits(p, KEYS);
    LimitsShow(u, Display(p, KEYS), p.budget.max, p.restart.delay, p.restart.interval, p.restart.burst);
  }

  // ---------- an accepted profile ----------

  /** A plain service without capabilities that writes below one directory. */
  function SampleValue(key: string): Value {
    if key in SWITCHES then Plain("yes")
    else if key in IDENTITIES then Plain("u")
    else if key == "RestrictAddressFamilies" then Many(["AF_UNIX"])
    else if key in LISTS then Many([])
    else if key == "ProtectSystem" then Plain("strict")
    else if key == "UMask" then Plain("0077")
    else Plain("yes")
  }

  function SampleProfile(now: Time): Profile {
    Profile("u.service", ["o", "a", "c", "i"], now + 1.0, map key | key in KEYS :: SampleValue(key), map[], None, map[],
            ["/d/e"], ["h"], TaskBudget(100, 0.25, "b"), Restart(5, 60, 3))
  }

  function SampleBaseline(): Baseline {
    Baseline("u.service", 0, [], 300.0, map phase | phase in PHASES :: 3, 80)
  }

  lemma KindsAreKeys()
    ensures forall key <- SWITCHES + IDENTITIES + LISTS :: key in KEYS
    ensures "ProtectSystem" in KEYS && "ProtectHome" in KEYS && "UMask" in KEYS && "RestrictNamespaces" in KEYS
  {
  }

  lemma SampleLists(p: Profile)
    requires p.capabilityReasons == map[]
    requires forall key <- LISTS ::
             Property(p, key) == Many(if key == "RestrictAddressFamilies" then ["AF_UNIX"] else [])
    ensures ListsOk(p)
  {
    assert "CapabilityBoundingSet" in LISTS && "AmbientCapabilities" in LISTS && "RestrictAddressFamilies" in LISTS
           && "ReadWritePaths" in LISTS;
    assert "CapabilityBoundingSet" != "RestrictAddressFamilies" && "AmbientCapabilities" != "RestrictAddressFamilies";
    assert "ReadWritePaths" != "RestrictAddressFamilies";
  }

  lemma SampleSingles()
    ensures SampleValue("ProtectSystem") == Plain("strict") && SampleValue("UMask") == Plain("0077")
    ensures SampleValue("ProtectHome") == Plain("yes") && SampleValue("RestrictNamespaces") == Plain("yes")
  {
  }

  lemma SampleKinds()
    ensures forall key <- SWITCHES :: SampleValue(key) == Plain("yes")
    ensures forall key <- IDENTITIES :: SampleValue(key) == Plain("u")
  {
  }

  lemma SampleListed()
    ensures forall key <- LISTS ::
            SampleValue(key) == Many(if key == "RestrictAddressFamilies" then ["AF_UNIX"] else [])
  {
  }

  predicate Samples(p: Profile) {
    p.capabilityReasons == map[] && p.properties == map key | key in KEYS :: SampleValue(key)
  }

  lemma SampleProperty(p: Profile, key: string)
    requires Samples(p) && key in KEYS
    ensures Property(p, key) == SampleValue(key)
  {
  }

  lemma SampleSwitches(p: Profile, now: Time)
    requires Samples(p)
    ensures forall key <- SWITCHES :: SwitchOk(p, key, now)
  {
    forall key | key in SWITCHES ensures SwitchOk(p, key, now) {
      KindsAreKeys();
      assert key in SWITCHES + IDENTITIES + LISTS;
      SampleProperty(p, key);
    }
  }

  lemma SampleIdentities(p: Profile, now: Time)
    requires Samples(p)
    ensures IdentitiesOk(p, now)
  {
    KindsAreKeys();
    assert "User" in IDENTITIES && "Group" in IDENTITIES;
    forall key | key in IDENTITIES ensures Property(p, key) == Plain("u") {
      assert key in SWITCHES + IDENTITIES + LISTS;
      SampleKinds();
      SampleProperty(p, key);
    }
    assert UnixName("u");
  }

  lemma SampleRest(p: Profile, now: Time)
    requires Samples(p)
    ensures FilesOk(p) && NamespacesOk(p, Property(p, "RestrictNamespaces"), now)
  {
    KindsAreKeys();
    SampleSingles();
    SampleProperty(p, "ProtectSystem");
    SampleProperty(p, "ProtectHome");
    SampleProperty(p, "UMask");
    SampleProperty(p, "RestrictNamespaces");
  }

  lemma SampleListsOk(p: Profile)
    requires Samples(p)
    ensures ListsOk(p)
  {
    KindsAreKeys();
    SampleListed();
    forall key | key in LISTS ensures Property(p, key) == SampleValue(key) {
      assert key in SWITCHES + IDENTITIES + LISTS;
      SampleProperty(p, key);
    }
    SampleLists(p);
  }

  lemma SampleProperties(p: Profile, now: Time)
    requires Samples(p)
    ensures PropertiesOk(p, now)
  {
    SampleSwitches(p, now);
    SampleIdentities(p, now);
    SampleRest(p, now);
    SampleListsOk(p);
    assert Complete(p);
  }

  lemma SampleNames()
    ensures UnitName("u.service") && ValidPath("/d/e")
    ensures forall word <- ["o", "a", "c", "i", "h", "b"] :: Token(word)
  {
    assert "u.service"[1..] == ".service" && "u.service"[..1] == "u";
    SamplePath();
  }

  lemma SamplePath()
    ensures Parts("/d/e"[1..]) == ["d", "e"]
  {
    var path := "/d/e";
    assert path[1..][1..][1..] == "e" && "e"[1..] == "";
    assert Parts("") == [""];
    assert ['e'] + "" == "e" && [""][1..] == [] && ['d'] + "" == "d" && ["", "e"][1..] == ["e"];
    assert Parts("e") == [['e'] + Parts("")[0]] + Parts("")[1..];
    assert Parts("e") == ["e"];
    assert path[1..][1..] == "/e" && "/e"[1..] == "e";
    assert Parts("/e") == [""] + Parts("e");
    assert path[1..] == "d/e" && "d/e"[1..] == "/e";
    assert Parts("d/e") == [['d'] + Parts("/e")[0]] + Parts("/e")[1..];
  }

  lemma SampleEvidence()
    ensures BaselineOk(SampleBaseline(), "u.service") && RestartOk(Restart(5, 60, 3))
    ensures Token("b") ==> BudgetOk(TaskBudget(100, 0.25, "b"), SampleBaseline())
  {
  }

  lemma SampleTokens()
    ensures Token("o") && Token("a") && Token("c") && Token("i") && Token("h") && Token("b")
  {
    SampleNames();
    var words := ["o", "a", "c", "i", "h", "b"];
    assert words[0] in words && words[1] in words && words[2] in words && words[3] in words && words[4] in words
           && words[5] in words;
  }

  /** Everything but the properties. */
  lemma SampleFrame(p: Profile, now: Time)
    requires p == SampleProfile(now).(exceptions := p.exceptions)
    ensures UnitName(p.unit) && |p.references| == 4 && (forall reference <- p.references :: Token(reference))
    ensures p.reviewUntil > now && p.persistence != [] && (forall path <- p.persistence :: ValidPath(path))
    ensures p.checks != [] && (forall check <- p.checks :: Token(check))
    ensures BaselineOk(SampleBaseline(), p.unit) && BudgetOk(p.budget, SampleBaseline()) && RestartOk(p.restart)
  {
    SampleNames();
    SampleTokens();
    SampleEvidence();
  }

  lemma SampleWithExceptions(p: Profile, now: Time)
    requires p == SampleProfile(now).(exceptions := p.exceptions)
    ensures Accepts(p, SampleBaseline(), now)
  {
    SampleFrame(p, now);
    SampleProperties(p, now);
  }

  /** The compiler accepts some profile at every time. */
  lemma SampleIsAccepted(now: Time)
    ensures Accepts(SampleProfile(now), SampleBaseline(), now)
  {
    SampleWithExceptions(SampleProfile(now), now);
  }

  /** The same profile with an exception for a switch that is on, due for review now. */
  function StaleSample(now: Time): Profile {
    SampleProfile(now).(exceptions := map["PrivateTmp" := Exception("", "", "", now)])
  }

  lemma StaleSampleIsStale(now: Time)
    ensures Expiry(StaleSample(now), now) && StaleExceptionListed(StaleSample(now), now)
  {
    SampleSwitchIsOn(StaleSample(now), "PrivateTmp");
    OneExceptionStale(StaleSample(now), "PrivateTmp", now);
  }

  lemma SampleSwitchIsOn(p: Profile, key: string)
    requires Samples(p) && key in SWITCHES
    ensures Property(p, key) == Plain("yes")
  {
    KindsAreKeys();
    assert key in SWITCHES + IDENTITIES + LISTS;
    SampleKinds();
    SampleProperty(p, key);
  }

  lemma OneExceptionStale(p: Profile, key: string, now: Time)
    requires p.exceptions.Keys == {key} && p.exceptions[key].reviewUntil == now < p.reviewUntil && p.rootException.None?
    requires Property(p, key) == Plain("yes")
    ensures Expiry(p, now) && StaleExceptionListed(p, now)
  {
    assert key in p.exceptions.Keys;
  }

  /** At every time the compiler accepts a profile whose posture has expired by then. */
  lemma StaleSampleIsAccepted(now: Time, actual: map<string, string>)
    returns (p: Profile)
    ensures Accepts(p, SampleBaseline(), now) && Expiry(p, now)
    ensures P.ReviewExpired in P.LifeFindings(actual, PostureOf(p, now), now)
  {
    p := StaleSample(now);
    SampleWithExceptions(StaleSample(now), now);
    StaleSampleIsStale(now);
    PostureMayBeBornExpired(p, SampleBaseline(), now, now, actual);
  }
}
