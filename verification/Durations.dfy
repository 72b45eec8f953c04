/** Decimal numbers and the durations systemd displays, as systemd_posture.py reads them back. */
module Durations {
  import opened Common

  function Digit(d: nat): char
    requires d < 10
  {
    "0123456789"[d]
  }

  predicate IsDigit(c: char) {
    '0' <= c <= '9'
  }

  function DigitValue(c: char): nat
    requires IsDigit(c)
  {
    c as int - '0' as int
  }

  function ShowNat(n: nat): string {
    if n < 10 then [Digit(n)] else ShowNat(n / 10) + [Digit(n % 10)]
  }

  function ReadNat(s: string): nat
    requires Digits(s)
  {
    if s == "" then 0 else 10 * ReadNat(s[..|s| - 1]) + DigitValue(s[|s| - 1])
  }

  lemma {:induction false} ReadShowNat(n: nat)
    ensures var s := ShowNat(n); s != "" && Digits(s) && ReadNat(s) == n
  {
    if n < 10 {
      assert [Digit(n)][..0] == "";
    } else {
      ReadShowNat(n / 10);
      var s := ShowNat(n / 10);
      assert (s + [Digit(n % 10)])[..|s|] == s;
    }
  }

  // ---------- reading ----------

  /** The length of the run of digits a text starts with. */
  function DigitRun(s: string): (n: nat)
    ensures n <= |s| && Digits(s[..n]) && (n < |s| ==> !IsDigit(s[n]))
  {
    if s == "" || !IsDigit(s[0]) then 0
    else
      var n := DigitRun(s[1..]);
      assert s[..n + 1] == [s[0]] + s[1..][..n];
      n + 1
  }

  function Power(n: nat): nat {
    if n == 0 then 1 else 10 * Power(n - 1)
  }

  lemma PowerPositive(n: nat)
    ensures Power(n) > 0
  {
  }

  function Fraction(s: string): real
    requires Digits(s)
  {
    PowerPositive(|s|);
    ReadNat(s) as real / Power(|s|) as real
  }

  const UNITS := {"us", "ms", "min", "s", "h", "d"}

  /** The unit a text starts with. */
  function UnitAt(s: string): (unit: Option<string>)
    ensures unit.Some? ==> unit.value in UNITS && 0 < |unit.value| <= |s|
  {
    if "us" <= s then Some("us")
    else if "ms" <= s then Some("ms")
    else if "min" <= s then Some("min")
    else if "s" <= s then Some("s")
    else if "h" <= s then Some("h")
    else if "d" <= s then Some("d")
    else None
  }

  /** An amount of a unit in seconds. */
  function Worth(amount: real, unit: string): real {
    if unit == "us" then amount * 0.000001
    else if unit == "ms" then amount * 0.001
    else if unit == "s" then amount
    else if unit == "min" then amount * 60.0
    else if unit == "h" then amount * 3600.0
    else amount * 86400.0
  }

  /** A number with an optional fraction: the characters it takes and its value. */
  function NumberAt(s: string): (r: Option<(nat, real)>)
    ensures r.Some? ==> 0 < r.value.0 <= |s|
  {
    var whole := DigitRun(s);
    if whole == 0 then None
    else
      var rest := s[whole..];
      var part := if "." <= rest then DigitRun(rest[1..]) else 0;
      var value := ReadNat(s[..whole]) as real;
      if part == 0 then Some((whole, value)) else Some((whole + 1 + part, value + Fraction(rest[1..][..part])))
  }

  datatype Amount = Amount(value: real, unit: string)

  /** One number with its unit, and the characters it takes. */
  function TokenAt(s: string): (r: Option<(nat, Amount)>)
    ensures r.Some? ==> 0 < r.value.0 <= |s|
  {
    var number := NumberAt(s);
    if number.None? then None
    else
      var unit := UnitAt(s[number.value.0..]);
      if unit.None? then None else Some((number.value.0 + |unit.value|, Amount(number.value.1, unit.value)))
  }

  /** The numbers with units of a text that has nothing else but spaces between them. */
  function Tokens(s: string): Option<seq<Amount>> {
    if s == "" then Some([])
    else if s[0] == ' ' then Tokens(s[1..])
    else
      var token := TokenAt(s);
      if token.None? then None
      else
        var rest := Tokens(s[token.value.0..]);
        if rest.None? then None else Some([token.value.1] + rest.value)
  }

  function Total(amounts: seq<Amount>): real {
    if amounts == [] then 0.0 else Worth(amounts[0].value, amounts[0].unit) + Total(amounts[1..])
  }

  /** The seconds of a displayed duration, which has at least one token. */
  function ReadDuration(s: string): Option<real> {
    var amounts := Tokens(s);
    if amounts.None? || amounts.value == [] then None else Some(Total(amounts.value))
  }

  // ---------- displaying ----------

  /** One unit of a displayed duration; a zero amount is not shown. */
  function ShowUnit(amount: nat, unit: string): string {
    if amount == 0 then "" else ShowNat(amount) + unit
  }

  function Spaced(a: string, b: string): string {
    if a == "" then b else if b == "" then a else a + " " + b
  }

  function ShowParts(days: nat, hours: nat, minutes: nat, seconds: nat): string {
    Spaced(ShowUnit(days, "d"), Spaced(ShowUnit(hours, "h"), Spaced(ShowUnit(minutes, "min"), ShowUnit(seconds, "s"))))
  }

  /** A whole number of seconds up to a day, as `systemctl show` prints it: "1min 30s". */
  function ShowDuration(n: nat): string {
    ShowParts(n / 86400, n / 3600 % 24, n / 60 % 60, n % 60)
  }

  const SHOWN_UNITS := {"d", "h", "min", "s"}

  lemma {:induction false} DigitRunOf(digits: string, rest: string)
    requires Digits(digits) && (rest == "" || !IsDigit(rest[0]))
    ensures DigitRun(digits + rest) == |digits|
  {
    if digits == "" {
      assert digits + rest == rest;
    } else {
      DigitRunOf(digits[1..], rest);
      assert (digits + rest)[1..] == digits[1..] + rest;
    }
  }

  /** The unit of a shown amount is read off before a space or the end of the text. */
  lemma UnitRead(unit: string, rest: string)
    requires unit in SHOWN_UNITS && (rest == "" || rest[0] == ' ')
    ensures UnitAt(unit + rest) == Some(unit)
  {
    var s := unit + rest;
    assert s[0] == unit[0];
    assert |unit| > 1 ==> s[1] == unit[1] && s[2] == unit[2];
    assert "us"[0] == 'u' && "ms"[0] == 'm' && "ms"[1] == 's' && "min"[0] == 'm' && "s"[0] == 's' && "h"[0] == 'h';
  }

  lemma NumberRead(n: nat, tail: string)
    requires tail != "" && !IsDigit(tail[0]) && tail[0] != '.'
    ensures NumberAt(ShowNat(n) + tail) == Some((|ShowNat(n)|, n as real))
  {
    ReadShowNat(n);
    var digits := ShowNat(n);
    DigitRunOf(digits, tail);
    assert (digits + tail)[..|digits|] == digits && (digits + tail)[|digits|..] == tail;
  }

  lemma AmountRead(amount: nat, unit: string, rest: string)
    requires unit in SHOWN_UNITS && (rest == "" || rest[0] == ' ')
    ensures var s, n := ShowNat(amount) + unit + rest, |ShowNat(amount)|;
            0 < n <= |s| && s[0] != ' ' && NumberAt(s) == Some((n, amount as real)) && UnitAt(s[n..]) == Some(unit)
  {
    var digits, tail := ShowNat(amount), unit + rest;
    assert digits + unit + rest == digits + tail && (digits + tail)[|digits|..] == tail;
    assert tail[0] == unit[0];
    NumberRead(amount, tail);
    ReadShowNat(amount);
    UnitRead(unit, rest);
  }

  lemma TokenFirst(s: string, n: nat, amount: Amount, after: string, rest: seq<Amount>)
    requires 0 < n && n + |amount.unit| <= |s| && s[0] != ' ' && s[n + |amount.unit|..] == after
    requires NumberAt(s) == Some((n, amount.value)) && UnitAt(s[n..]) == Some(amount.unit)
             && Tokens(after) == Some(rest)
    ensures Tokens(s) == Some([amount] + rest)
  {
    assert TokenAt(s) == Some((n + |amount.unit|, amount));
  }

  lemma ShownRead(amount: nat, unit: string, after: string, amounts: seq<Amount>)
    requires unit in SHOWN_UNITS && (after == "" || after[0] == ' ') && Tokens(after) == Some(amounts)
    ensures var s := ShowNat(amount) + unit + after;
            s != "" && s[0] != ' ' && Tokens(s) == Some([Amount(amount as real, unit)] + amounts)
  {
    var shown := ShowNat(amount) + unit;
    var s := shown + after;
    AmountRead(amount, unit, after);
    assert s[|shown|..] == after;
    TokenFirst(s, |ShowNat(amount)|, Amount(amount as real, unit), after, amounts);
  }

  /** A shown amount in front of more of the duration. */
  lemma SpacedRead(amount: nat, unit: string, rest: string, amounts: seq<Amount>)
    requires unit in SHOWN_UNITS && amount > 0 && Tokens(rest) == Some(amounts) && (rest != "" ==> rest[0] != ' ')
    ensures var s := Spaced(ShowUnit(amount, unit), rest);
            s != "" && s[0] != ' ' && Tokens(s) == Some([Amount(amount as real, unit)] + amounts)
  {
    ReadShowNat(amount);
    var shown := ShowNat(amount) + unit;
    if rest == "" {
      ShownRead(amount, unit, "", amounts);
      assert shown + "" == shown;
    } else {
      assert (" " + rest)[1..] == rest;
      ShownRead(amount, unit, " " + rest, amounts);
      assert shown + " " + rest == shown + (" " + rest);
    }
  }

  function Part(amount: nat, unit: string): seq<Amount> {
    if amount == 0 then [] else [Amount(amount as real, unit)]
  }

  function AllParts(days: nat, hours: nat, minutes: nat, seconds: nat): seq<Amount> {
    Part(days, "d") + (Part(hours, "h") + (Part(minutes, "min") + (Part(seconds, "s") + [])))
  }

  /** A part that may be nothing at all. */
  lemma PartRead(amount: nat, unit: string, rest: string, amounts: seq<Amount>)
    requires unit in SHOWN_UNITS && Tokens(rest) == Some(amounts) && (rest != "" ==> rest[0] != ' ')
    ensures var s := Spaced(ShowUnit(amount, unit), rest);
            Tokens(s) == Some(Part(amount, unit) + amounts) && (s != "" ==> s[0] != ' ')
  {
    if amount > 0 {
      SpacedRead(amount, unit, rest, amounts);
    } else {
      assert Part(amount, unit) + amounts == amounts;
    }
  }

  lemma PartsRead(days: nat, hours: nat, minutes: nat, seconds: nat)
    ensures Tokens(ShowParts(days, hours, minutes, seconds))
            == Some(AllParts(days, hours, minutes, seconds))
  {
    var third := ShowUnit(seconds, "s");
    PartRead(seconds, "s", "", []);
    assert Spaced(third, "") == third;
    var second := Spaced(ShowUnit(minutes, "min"), third);
    PartRead(minutes, "min", third, Part(seconds, "s") + []);
    var first := Spaced(ShowUnit(hours, "h"), second);
    PartRead(hours, "h", second, Part(minutes, "min") + (Part(seconds, "s") + []));
    PartRead(days, "d", first, Part(hours, "h") + (Part(minutes, "min") + (Part(seconds, "s") + [])));
  }

  lemma PartTotal(amount: nat, unit: string, rest: seq<Amount>)
    ensures Total(Part(amount, unit) + rest) == Worth(amount as real, unit) + Total(rest)
  {
    if amount == 0 {
      assert Part(amount, unit) + rest == rest;
    } else {
      assert (Part(amount, unit) + rest)[1..] == rest;
    }
  }

  lemma PartsTotal(days: nat, hours: nat, minutes: nat, seconds: nat)
    ensures Total(AllParts(days, hours, minutes, seconds))
            == days as real * 86400.0 + hours as real * 3600.0 + minutes as real * 60.0 + seconds as real
  {
    var fourth := Part(seconds, "s") + [];
    var third := Part(minutes, "min") + fourth;
    PartTotal(seconds, "s", []);
    PartTotal(minutes, "min", fourth);
    PartTotal(hours, "h", third);
    PartTotal(days, "d", Part(hours, "h") + third);
  }

  lemma SomePart(days: nat, hours: nat, minutes: nat, seconds: nat)
    requires days + hours + minutes + seconds > 0
    ensures AllParts(days, hours, minutes, seconds) != []
  {
    assert |Part(days, "d")| + |Part(hours, "h")| + |Part(minutes, "min")| + |Part(seconds, "s")| > 0;
  }

  lemma TokensTotal(s: string, amounts: seq<Amount>, total: real)
    requires Tokens(s) == Some(amounts) && amounts != [] && Total(amounts) == total
    ensures ReadDuration(s) == Some(total)
  {
  }

  lemma PartsReadBack(n: nat, days: nat, hours: nat, minutes: nat, seconds: nat)
    requires n > 0 && n == days * 86400 + hours * 3600 + minutes * 60 + seconds
    ensures ReadDuration(ShowParts(days, hours, minutes, seconds)) == Some(n as real)
  {
    PartsRead(days, hours, minutes, seconds);
    PartsTotal(days, hours, minutes, seconds);
    SomePart(days, hours, minutes, seconds);
    RealSum(n, days, hours, minutes, seconds);
    TokensTotal(ShowParts(days, hours, minutes, seconds), AllParts(days, hours, minutes, seconds), n as real);
  }

  /** What is displayed reads back as the same number of seconds. */
  lemma DurationReadsBack(n: nat)
    requires 0 < n
    ensures ReadDuration(ShowDuration(n)) == Some(n as real)
  {
    DaysSplit(n);
    PartsReadBack(n, n / 86400, n / 3600 % 24, n / 60 % 60, n % 60);
  }

  lemma RealSum(n: nat, days: nat, hours: nat, minutes: nat, seconds: nat)
    requires n == days * 86400 + hours * 3600 + minutes * 60 + seconds
    ensures n as real == days as real * 86400.0 + hours as real * 3600.0 + minutes as real * 60.0 + seconds as real
  {
  }

  lemma DaysSplit(n: nat)
    ensures n == n / 86400 * 86400 + n / 3600 % 24 * 3600 + n / 60 % 60 * 60 + n % 60
  {
    assert n / 3600 == n / 60 / 60 && n / 86400 == n / 3600 / 24;
  }
}
