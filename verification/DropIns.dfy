/**
 * A compiled drop-in installed over any inherited unit, and checked with the posture profile compiled
 * beside it: the compiler and the evaluation agree.
 */
module DropIns {
  import opened Common
  import opened Durations
  import opened Strings
  import opened Hardening
  import P = Posture

  // ---------- how systemd reads a drop-in ----------

  datatype Setting = Scalar(text: string) | Listing(items: seq<string>)

  datatype Section = Outside | UnitSection | ServiceSection

  /** The settings of a unit, section by section. */
  datatype Unit = Unit(limits: map<string, Setting>, service: map<string, Setting>)

  datatype Reader = Reader(section: Section, unit: Unit)

  predicate Additive(key: string) {
    key in LISTS || key == "RestrictNamespaces"
  }

  function Current(settings: map<string, Setting>, key: string): seq<string> {
    if key in settings && settings[key].Listing? then settings[key].items else []
  }

  /** An empty assignment resets a list, another adds to it; a switch or any other property is replaced. */
  function Assign(settings: map<string, Setting>, key: string, value: string): map<string, Setting> {
    settings[key :=
      if !Additive(key) || (key == "RestrictNamespaces" && value in {"yes", "no"}) then Scalar(value)
      else if value == "" then Listing([])
      else Listing(Current(settings, key) + Words(value))]
  }

  function Partition(line: string): Option<(string, string)> {
    if line == "" then None
    else if line[0] == '=' then Some(("", line[1..]))
    else
      var rest := Partition(line[1..]);
      if rest.None? then None else Some(([line[0]] + rest.value.0, rest.value.1))
  }

  function SectionOf(line: string): Section {
    if line == "[Unit]" then UnitSection else if line == "[Service]" then ServiceSection else Outside
  }

  function ReadLine(r: Reader, line: string): Reader {
    if line == "" || line[0] == '#' then r
    else if line[0] == '[' then r.(section := SectionOf(line))
    else if Partition(line).None? then r
    else
      var (key, value) := Partition(line).value;
      match r.section
      case Outside => r
      case UnitSection => r.(unit := r.unit.(limits := Assign(r.unit.limits, key, value)))
      case ServiceSection => r.(unit := r.unit.(service := Assign(r.unit.service, key, value)))
  }

  function ReadLines(r: Reader, lines: seq<string>): Reader
    decreases |lines|
  {
    if lines == [] then r else ReadLines(ReadLine(r, lines[0]), lines[1..])
  }

  /** The unit once the drop-in is read after everything it inherits. */
  function Installed(inherited: Unit, content: string): Unit {
    ReadLines(Reader(Outside, inherited), Split(content)).unit
  }

  lemma {:induction false} ReadConcat(r: Reader, a: seq<string>, b: seq<string>)
    ensures ReadLines(r, a + b) == ReadLines(ReadLines(r, a), b)
    decreases |a|
  {
    if a == [] {
      assert a + b == b;
    } else {
      ReadConcat(ReadLine(r, a[0]), a[1..], b);
      assert (a + b)[1..] == a[1..] + b;
    }
  }

  // ---------- one assignment ----------

  predicate Name(key: string) {
    key != "" && 'A' <= key[0] <= 'Z' && '=' !in key && '\n' !in key
  }

  lemma {:induction false} PartitionOf(key: string, value: string)
    requires '=' !in key
    ensures Partition(key + "=" + value) == Some((key, value))
  {
    if key == "" {
      assert (key + "=" + value)[1..] == value;
    } else {
      PartitionOf(key[1..], value);
      assert (key + "=" + value)[1..] == key[1..] + "=" + value;
      assert [key[0]] + key[1..] == key;
    }
  }

  lemma ReadAssignment(r: Reader, key: string, value: string)
    requires Name(key)
    ensures r.section == ServiceSection ==>
              ReadLine(r, Assignment(key, value)) == r.(unit := r.unit.(service := Assign(r.unit.service, key, value)))
    ensures r.section == UnitSection ==>
              ReadLine(r, Assignment(key, value)) == r.(unit := r.unit.(limits := Assign(r.unit.limits, key, value)))
  {
    var line := key + "=" + value;
    PartitionOf(key, value);
    assert line[0] == key[0];
  }

  // ---------- one property ----------

  function SettingOf(v: Value): Setting {
    match v
    case Plain(text) => Scalar(text)
    case Many(items) => Listing(items)
  }

  /** The values a compiled property can have: literal text, or words for a list. */
  predicate Fits(key: string, v: Value) {
    match v
    case Plain(text) => '\n' !in text && (Additive(key) ==> key == "RestrictNamespaces" && text == "yes")
    case Many(items) =>
      Additive(key) && (forall item <- items :: Word(item))
          && (key == "RestrictNamespaces" ==> JoinWords(items) !in {"yes", "no"})
  }

  lemma JoinedIsEmpty(items: seq<string>)
    requires forall item <- items :: Word(item)
    ensures JoinWords(items) == "" <==> items == []
  {
    if items != [] {
      assert Word(items[0]);
    }
  }

  lemma AssignList(settings: map<string, Setting>, key: string, items: seq<string>)
    requires Fits(key, Many(items)) && items != []
    ensures Assign(Assign(settings, key, ""), key, JoinWords(items)) == settings[key := Listing(items)]
  {
    JoinedIsEmpty(items);
    WordsJoin(items);
    var reset := Assign(settings, key, "");
    assert reset == settings[key := Listing([])];
    assert Current(reset, key) + Words(JoinWords(items)) == items;
  }

  lemma ReadList(r: Reader, key: string, items: seq<string>)
    requires r.section == ServiceSection && Name(key) && Fits(key, Many(items)) && items != []
    ensures ReadLines(r, PropertyLines(key, Many(items)))
            == r.(unit := r.unit.(service := r.unit.service[key := Listing(items)]))
  {
    var first, second := Assignment(key, ""), Assignment(key, JoinWords(items));
    assert PropertyLines(key, Many(items)) == [first, second] && [first, second][1..] == [second];
    ReadAssignment(r, key, "");
    var reset := ReadLine(r, first);
    ReadAssignment(reset, key, JoinWords(items));
    assert ReadLines(reset, [second]) == ReadLine(reset, second);
    AssignList(r.unit.service, key, items);
  }

  lemma ReadProperty(r: Reader, key: string, v: Value)
    requires r.section == ServiceSection && Name(key) && Fits(key, v)
    ensures ReadLines(r, PropertyLines(key, v)) == r.(unit := r.unit.(service := r.unit.service[key := SettingOf(v)]))
  {
    if v.Many? && v.items != [] {
      ReadList(r, key, v.items);
    } else {
      var text := if v.Plain? then v.text else "";
      assert PropertyLines(key, v) == [Assignment(key, text)];
      ReadAssignment(r, key, text);
      assert Assign(r.unit.service, key, text) == r.unit.service[key := SettingOf(v)];
    }
  }

  // ---------- every property ----------

  predicate Sets(before: map<string, Setting>, after: map<string, Setting>, keys: seq<string>, p: Profile) {
    && (forall key <- keys :: key in after && after[key] == SettingOf(Property(p, key)))
    && (forall key <- after.Keys :: key in keys || (key in before && after[key] == before[key]))
    && (forall key <- before.Keys :: key in after)
  }

  lemma {:induction false} ReadProperties(r: Reader, keys: seq<string>, p: Profile)
    requires r.section == ServiceSection && forall key <- keys :: Name(key) && Fits(key, Property(p, key))
    ensures var t := ReadLines(r, AllLines(keys, p));
            t.section == ServiceSection && t.unit.limits == r.unit.limits
                && Sets(r.unit.service, t.unit.service, keys, p)
    decreases |keys|
  {
    if keys == [] {
    } else {
      var key := keys[0];
      ReadProperty(r, key, Property(p, key));
      var s := ReadLines(r, PropertyLines(key, Property(p, key)));
      ReadConcat(r, PropertyLines(key, Property(p, key)), AllLines(keys[1..], p));
      ReadProperties(s, keys[1..], p);
    }
  }

  // ---------- an accepted profile ----------

  lemma ListNames()
    ensures forall key <- LISTS :: Name(key)
  {
  }

  lemma SingleNames()
    ensures Name("RestrictNamespaces") && Name("ProtectSystem") && Name("ProtectHome") && Name("UMask")
  {
  }

  lemma SwitchNames()
    ensures forall key <- SWITCHES :: Name(key)
  {
    PrivilegeNames();
    PrivateNames();
    ProtectNames();
  }

  lemma PrivilegeNames()
    ensures Name("LockPersonality") && Name("NoNewPrivileges") && Name("RestrictSUIDSGID")
  {
  }

  lemma PrivateNames()
    ensures Name("PrivateDevices") && Name("PrivateTmp")
  {
  }

  lemma ProtectNames()
    ensures Name("ProtectControlGroups") && Name("ProtectKernelModules") && Name("ProtectKernelTunables")
  {
  }

  lemma OtherNames()
    ensures forall key <- IDENTITIES :: Name(key)
    ensures Name("TasksMax") && Name("RestartSec") && Name("StartLimitBurst") && Name("StartLimitIntervalSec")
  {
  }

  lemma NoLimitIsAKey()
    ensures "TasksMax" !in KEYS && "RestartSec" !in KEYS
  {
  }

  lemma KeysAreNames()
    ensures forall key <- KEYS :: Name(key)
  {
    KeysByKind();
    ListNames();
    SingleNames();
    SwitchNames();
    OtherNames();
  }

  lemma KeysByKind()
    ensures forall key <- KEYS ::
              key in SWITCHES || key in IDENTITIES || key in LISTS
              || key in {"ProtectSystem", "ProtectHome", "UMask", "RestrictNamespaces"}
  {
  }

  lemma PathsAreWords(s: string)
    requires forall c <- s :: PathChar(c)
    ensures forall c <- s :: !Blank(c)
  {
    forall c | c in s ensures !Blank(c) {
      assert PathChar(c);
    }
  }

  lemma CapabilitiesAreWords(s: string)
    requires Capability(s)
    ensures Word(s)
  {
    assert s == "CAP_" + s[4..];
    forall c | c in s[4..] ensures !Blank(c) {
    }
  }

  lemma FixedWords()
    ensures forall family <- FAMILIES :: Word(family)
    ensures forall name <- NAMESPACES :: Word(name) && name != "yes" && name != "no"
  {
  }

  /** More than one word joined is not a single word. */
  lemma JoinedIsAWord(items: seq<string>)
    requires (forall item <- items :: Word(item)) && items != [] && Word(JoinWords(items))
    ensures items == [JoinWords(items)]
  {
    if |items| > 1 {
      JoinedHasABlank(items);
    }
  }

  lemma JoinedHasABlank(items: seq<string>)
    requires |items| > 1
    ensures ' ' in JoinWords(items) && Blank(' ')
  {
    assert JoinWords(items)[|items[0]|] == ' ';
  }

  lemma NamespacesFit(items: seq<string>)
    requires items != [] && forall name <- items :: name in NAMESPACES
    ensures Fits("RestrictNamespaces", Many(items))
  {
    FixedWords();
    assert Word("yes") && Word("no");
    if JoinWords(items) in {"yes", "no"} {
      JoinedIsAWord(items);
      assert items[0] in items;
    }
  }

  lemma ItemsFit(p: Profile)
    requires ListsOk(p)
    ensures forall c <- Items(Property(p, "CapabilityBoundingSet")) + Items(Property(p, "AmbientCapabilities")) ::
            Word(c)
    ensures forall path <- Items(Property(p, "ReadWritePaths")) :: Word(path)
    ensures forall family <- Items(Property(p, "RestrictAddressFamilies")) :: Word(family)
  {
    FixedWords();
    forall c | c in Items(Property(p, "CapabilityBoundingSet"))
        + Items(Property(p, "AmbientCapabilities")) ensures Word(c) {
      CapabilitiesAreWords(c);
    }
    forall path | path in Items(Property(p, "ReadWritePaths")) ensures Word(path) {
      PathsAreWords(path);
    }
  }

  lemma ListsFit(p: Profile, key: string)
    requires ListsOk(p) && key in LISTS
    ensures Property(p, key).Many? && forall item <- Property(p, key).items :: Word(item)
  {
    assert ListOk(p, key);
    ItemsFit(p);
  }

  lemma NamespacePropertyFits(p: Profile, now: Time)
    requires NamespacesOk(p, Property(p, "RestrictNamespaces"), now)
    ensures Fits("RestrictNamespaces", Property(p, "RestrictNamespaces"))
  {
    if Property(p, "RestrictNamespaces") != Plain("yes") {
      NamespacesFit(Property(p, "RestrictNamespaces").items);
    }
  }

  /** Every property of an accepted profile can be written out and read back. */
  lemma AcceptedFits(p: Profile, key: string, now: Time)
    requires PropertiesOk(p, now) && key in KEYS
    ensures Fits(key, Property(p, key))
  {
    KeysByKind();
    if key in LISTS {
      ListsFit(p, key);
    } else if key == "RestrictNamespaces" {
      NamespacePropertyFits(p, now);
    } else {
      PlainFits(p, key, now);
    }
  }

  lemma PlainFits(p: Profile, key: string, now: Time)
    requires (forall key <- SWITCHES :: SwitchOk(p, key, now)) && IdentitiesOk(p, now) && FilesOk(p)
    requires key in SWITCHES || key in IDENTITIES || key in {"ProtectSystem", "ProtectHome", "UMask"}
    ensures Property(p, key).Plain? && '\n' !in Property(p, key).text
  {
    if key in IDENTITIES {
      assert IdentityOk(p, key);
    } else if key in SWITCHES {
      assert SwitchOk(p, key, now);
    }
  }

  // ---------- the whole drop-in ----------

  predicate OneLine(lines: seq<string>) {
    forall line <- lines :: '\n' !in line
  }

  lemma NumbersAreOneLine(n: nat)
    ensures '\n' !in ShowNat(n)
  {
    ReadShowNat(n);
  }

  lemma {:induction false} PropertiesAreOneLine(keys: seq<string>, p: Profile)
    requires forall key <- keys :: Name(key) && Fits(key, Property(p, key))
    ensures OneLine(AllLines(keys, p))
  {
    if keys != [] {
      var v := Property(p, keys[0]);
      PropertiesAreOneLine(keys[1..], p);
      if v.Many? {
        JoinedIsOneLine(v.items);
      }
      assert OneLine(PropertyLines(keys[0], v));
    }
  }

  lemma LimitsAreScalar()
    ensures !Additive("StartLimitIntervalSec") && !Additive("StartLimitBurst") && !Additive("TasksMax")
            && !Additive("RestartSec")
  {
  }

  lemma TwoRead(r: Reader, key: string, value: string, other: string, otherValue: string)
    requires Name(key) && Name(other) && !Additive(key) && !Additive(other) && r.section != Outside
    ensures var t := ReadLine(ReadLine(r, Assignment(key, value)), Assignment(other, otherValue));
            && t.section == r.section
            && (r.section == UnitSection ==>
                 t.unit == r.unit.(limits := r.unit.limits[key := Scalar(value)][other := Scalar(otherValue)]))
            && (r.section == ServiceSection ==>
                 t.unit == r.unit.(service := r.unit.service[key := Scalar(value)][other := Scalar(otherValue)]))
  {
    ReadAssignment(r, key, value);
    ReadAssignment(ReadLine(r, Assignment(key, value)), other, otherValue);
  }

  lemma ReadSix(r: Reader, a: string, b: string, c: string, d: string, e: string, f: string)
    ensures ReadLines(r, [a, b, c, d, e, f])
            == ReadLine(ReadLine(ReadLine(ReadLine(ReadLine(ReadLine(r, a), b), c), d), e), f)
  {
    ReadThree(r, a, b, c);
    ReadThree(ReadLine(ReadLine(ReadLine(r, a), b), c), d, e, f);
    ReadConcat(r, [a, b, c], [d, e, f]);
    assert [a, b, c] + [d, e, f] == [a, b, c, d, e, f];
  }

  lemma ReadThree(r: Reader, a: string, b: string, c: string)
    ensures ReadLines(r, [a, b, c]) == ReadLine(ReadLine(ReadLine(r, a), b), c)
  {
    var s := ReadLine(r, a);
    assert [a, b, c][1..] == [b, c] && [b, c][1..] == [c] && [c][1..] == [];
    assert ReadLines(r, [a, b, c]) == ReadLines(s, [b, c]);
    assert ReadLines(s, [b, c]) == ReadLines(ReadLine(s, b), [c]);
  }

  lemma SectionsRead(r: Reader)
    ensures ReadLine(r, COMMENT) == r && ReadLine(r, "") == r
    ensures ReadLine(r, "[Unit]") == r.(section := UnitSection)
            && ReadLine(r, "[Service]") == r.(section := ServiceSection)
  {
    assert COMMENT[0] == '#' && "[Unit]"[0] == '[' && "[Service]"[0] == '[';
    assert "[Unit]"[1] == 'U' && "[Service]"[1] == 'S';
  }

  lemma HeaderRead(u: Unit, r: Restart)
    requires RestartOk(r)
    ensures ReadLines(Reader(Outside, u), Header(r))
            == Reader(ServiceSection, u.(limits := u.limits["StartLimitIntervalSec" := Scalar(ShowNat(r.interval))]
                                                           ["StartLimitBurst" := Scalar(ShowNat(r.burst))]))
  {
    var interval, burst :=
        Assignment("StartLimitIntervalSec", ShowNat(r.interval)), Assignment("StartLimitBurst", ShowNat(r.burst));
    var outside, inUnit := Reader(Outside, u), Reader(UnitSection, u);
    OtherNames();
    LimitsAreScalar();
    TwoRead(inUnit, "StartLimitIntervalSec", ShowNat(r.interval), "StartLimitBurst", ShowNat(r.burst));
    var t := ReadLine(ReadLine(inUnit, interval), burst);
    SectionsRead(outside);
    SectionsRead(t);
    ReadSix(outside, COMMENT, "[Unit]", interval, burst, "", "[Service]");
  }

  lemma FooterRead(r: Reader, max: nat, restart: Restart)
    requires RestartOk(restart) && r.section == ServiceSection
    ensures ReadLines(r, Footer(max, restart)).unit
            == r.unit.(service :=
                r.unit.service["TasksMax" := Scalar(ShowNat(max))]["RestartSec" :=
                    Scalar(ShowNat(restart.delay) + "s")])
  {
    OtherNames();
    LimitsAreScalar();
    TwoRead(r, "TasksMax", ShowNat(max), "RestartSec", ShowNat(restart.delay) + "s");
    var tasks, delay := Assignment("TasksMax", ShowNat(max)), Assignment("RestartSec", ShowNat(restart.delay) + "s");
    var t := ReadLine(ReadLine(r, tasks), delay);
    ReadThree(r, tasks, delay, "");
    SectionsRead(t);
  }

  lemma AssignmentIsOneLine(key: string, value: string)
    requires Name(key) && '\n' !in value
    ensures '\n' !in Assignment(key, value)
  {
  }

  lemma HeaderIsOneLine(r: Restart)
    requires RestartOk(r)
    ensures OneLine(Header(r))
  {
    OtherNames();
    NumbersAreOneLine(r.interval);
    NumbersAreOneLine(r.burst);
    AssignmentIsOneLine("StartLimitIntervalSec", ShowNat(r.interval));
    AssignmentIsOneLine("StartLimitBurst", ShowNat(r.burst));
    FixedAreOneLine();
  }

  lemma FixedAreOneLine()
    ensures '\n' !in COMMENT && '\n' !in "[Unit]" && '\n' !in "[Service]" && '\n' !in ""
  {
    assert '\n' !in "# Reviewed candidate; ";
    assert '\n' !in "install only in the ";
    assert '\n' !in "approved per-service window.";
  }

  lemma FooterIsOneLine(max: nat, r: Restart)
    requires RestartOk(r)
    ensures OneLine(Footer(max, r))
  {
    OtherNames();
    NumbersAreOneLine(max);
    NumbersAreOneLine(r.delay);
    AssignmentIsOneLine("TasksMax", ShowNat(max));
    AssignmentIsOneLine("RestartSec", ShowNat(r.delay) + "s");
  }

  predicate KeysConfigured(u: Unit, keys: seq<string>, p: Profile) {
    forall key <- keys :: key in u.service && u.service[key] == SettingOf(Property(p, key))
  }

  predicate LimitsConfigured(u: Unit, max: nat, delay: nat, interval: nat, burst: nat) {
    && "TasksMax" in u.service && u.service["TasksMax"] == Scalar(ShowNat(max))
    && "RestartSec" in u.service && u.service["RestartSec"] == Scalar(ShowNat(delay) + "s")
    && "StartLimitIntervalSec" in u.limits && u.limits["StartLimitIntervalSec"] == Scalar(ShowNat(interval))
    && "StartLimitBurst" in u.limits && u.limits["StartLimitBurst"] == Scalar(ShowNat(burst))
  }

  /** What the drop-in makes of any inherited unit. */
  predicate Configured(u: Unit, p: Profile)
    requires RestartOk(p.restart) && p.budget.max >= 1
  {
    KeysConfigured(u, KEYS, p)
        && LimitsConfigured(u, p.budget.max, p.restart.delay, p.restart.interval, p.restart.burst)
  }

  lemma ReadInTurn(r: Reader, a: seq<string>, b: seq<string>, c: seq<string>)
    ensures ReadLines(r, a + b + c) == ReadLines(ReadLines(ReadLines(r, a), b), c)
  {
    ReadConcat(r, a, b);
    ReadConcat(r, a + b, c);
  }

  lemma KeysStay(before: Unit, after: Unit, keys: seq<string>, p: Profile, tasks: Setting, delay: Setting)
    requires KeysConfigured(before, keys, p) && "TasksMax" !in keys && "RestartSec" !in keys
    requires after.service == before.service["TasksMax" := tasks]["RestartSec" := delay]
    ensures KeysConfigured(after, keys, p)
  {
  }

  lemma LimitsStay(before: Unit, after: Unit, max: nat, delay: nat, interval: nat, burst: nat)
    requires after.service
             == before.service["TasksMax" := Scalar(ShowNat(max))]["RestartSec" := Scalar(ShowNat(delay) + "s")]
    requires after.limits
             == before.limits["StartLimitIntervalSec" := Scalar(ShowNat(interval))]["StartLimitBurst" :=
                 Scalar(ShowNat(burst))]
    ensures LimitsConfigured(after, max, delay, interval, burst)
  {
    StartLimitsDiffer();
  }

  lemma LinesConfigure(p: Profile, keys: seq<string>, inherited: Unit)
    requires RestartOk(p.restart) && p.budget.max >= 1 && forall key <- keys :: Name(key) && Fits(key, Property(p, key))
    requires "TasksMax" !in keys && "RestartSec" !in keys
    ensures var lines := Header(p.restart) + AllLines(keys, p) + Footer(p.budget.max, p.restart);
            var u := ReadLines(Reader(Outside, inherited), lines).unit;
            KeysConfigured(u, keys, p)
                && LimitsConfigured(u, p.budget.max, p.restart.delay, p.restart.interval, p.restart.burst)
  {
    var header, middle, footer := Header(p.restart), AllLines(keys, p), Footer(p.budget.max, p.restart);
    var start := Reader(Outside, inherited);
    HeaderRead(inherited, p.restart);
    var first := ReadLines(start, header);
    ReadProperties(first, keys, p);
    var second := ReadLines(first, middle);
    FooterRead(second, p.budget.max, p.restart);
    ReadInTurn(start, header, middle, footer);
    var last := ReadLines(second, footer).unit;
    KeysStay(second.unit, last, keys, p, Scalar(ShowNat(p.budget.max)), Scalar(ShowNat(p.restart.delay) + "s"));
    LimitsStay(Unit(inherited.limits, second.unit.service), last, p.budget.max, p.restart.delay, p.restart.interval,
        p.restart.burst);
  }

  /** Whatever a unit inherits, installing the compiled drop-in leaves exactly the reviewed settings. */
  lemma InstalledIsConfigured(p: Profile, base: Baseline, now: Time, inherited: Unit)
    requires Accepts(p, base, now)
    ensures Configured(Installed(inherited, Content(p)), p)
  {
    KeysAreNames();
    forall key | key in KEYS ensures Fits(key, Property(p, key)) {
      AcceptedFits(p, key, now);
    }
    PropertiesAreOneLine(KEYS, p);
    HeaderIsOneLine(p.restart);
    FooterIsOneLine(p.budget.max, p.restart);
    SplitJoin(Lines(p));
    NoLimitIsAKey();
    LinesConfigure(p, KEYS, inherited);
  }

  lemma StartLimitsDiffer()
    ensures "StartLimitIntervalSec" != "StartLimitBurst" && "TasksMax" != "RestartSec"
  {
  }
}
