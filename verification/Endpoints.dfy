/** The port in the endpoint text of a browser record (apps/server/src/desktop-target.ts, portFromEndpoint). */
module Endpoints {
  import opened Common
  import opened Durations

  /** The characters that trim() removes. */
  predicate White(c: char) {
    var n := c as int;
    9 <= n <= 13 || 0x2000 <= n <= 0x200A || n in {0x20, 0xA0, 0x1680, 0x2028, 0x2029, 0x202F, 0x205F, 0x3000, 0xFEFF}
  }

  function TrimStart(s: string): string {
    if s != "" && White(s[0]) then TrimStart(s[1..]) else s
  }

  function TrimEnd(s: string): string {
    if s != "" && White(s[|s| - 1]) then TrimEnd(s[..|s| - 1]) else s
  }

  function Trimmed(s: string): string {
    TrimEnd(TrimStart(s))
  }

  // ---------- the pattern ----------

  /** A colon at i, then two to five digits, then a slash or the end. */
  predicate ColonPort(s: string, i: nat, d: nat) {
    i + 1 + d <= |s| && s[i] == ':' && 2 <= d <= 5 && Digits(s[i + 1..i + 1 + d])
        && (i + 1 + d == |s| || s[i + 1 + d] == '/')
  }

  /** At i the end of a scheme, then a host without slash or colon up to j, and there such a port. */
  predicate UrlPort(s: string, i: nat, j: nat, d: nat) {
    i + 3 < j < |s| && s[i..i + 3] == "://" && '/' !in s[i + 3..j] && ':' !in s[i + 3..j] && ColonPort(s, j, d)
  }

  /** The pattern matches from i, with its digits after the colon at j. */
  predicate MatchAt(s: string, i: nat, j: nat, d: nat) {
    (i == j && ColonPort(s, i, d)) || UrlPort(s, i, j, d)
  }

  /** And nowhere further left. */
  ghost predicate FirstMatch(s: string, i: nat, j: nat, d: nat) {
    MatchAt(s, i, j, d) && forall i1: nat, j1: nat, d1: nat :: i1 < i ==> !MatchAt(s, i1, j1, d1)
  }

  // ---------- one scan ----------

  function PortDigits(s: string, i: nat): (d: Option<nat>)
    requires i < |s|
    ensures forall n: nat :: d == Some(n) <==> ColonPort(s, i, n)
  {
    var n := DigitRun(s[i + 1..]);
    DigitsEnd(s, i);
    if s[i] == ':' && 2 <= n <= 5 && (i + 1 + n == |s| || s[i + 1 + n] == '/') then Some(n) else None
  }

  /** The digits of a port are all the digits there. */
  lemma DigitsEnd(s: string, i: nat)
    requires i < |s|
    ensures var n := DigitRun(s[i + 1..]);
            && i + 1 + n <= |s| && Digits(s[i + 1..i + 1 + n])
            && forall d: nat :: ColonPort(s, i, d) ==> d == n
  {
    var n, rest := DigitRun(s[i + 1..]), s[i + 1..];
    assert s[i + 1..i + 1 + n] == rest[..n];
    forall d: nat | ColonPort(s, i, d) ensures d == n {
      assert s[i + 1..i + 1 + d] == rest[..d] && rest == rest[..d] + rest[d..];
      DigitRunOf(rest[..d], rest[d..]);
    }
  }

  /** The number after the first colon that has a port, from i on, or zero. */
  function PortFrom(s: string, i: nat): nat
    requires i <= |s|
    decreases |s| - i
  {
    if i == |s| then 0
    else match PortDigits(s, i)
      case Some(d) => ReadNat(s[i + 1..i + 1 + d])
      case None => PortFrom(s, i + 1)
  }

  function EndpointPort(text: string): nat {
    PortFrom(Trimmed(text), 0)
  }

  lemma NoDigits(s: string, i: nat)
    requires i < |s| && forall d: nat :: !ColonPort(s, i, d)
    ensures PortDigits(s, i).None?
  {
    match PortDigits(s, i)
    case Some(_) => assert false;
    case None =>
  }

  lemma PortSkips(s: string, i: nat) returns (next: nat)
    requires i < |s| && forall d: nat :: !ColonPort(s, i, d)
    ensures next == PortFrom(s, i) == PortFrom(s, i + 1)
  {
    NoDigits(s, i);
    next := PortFrom(s, i + 1);
  }

  lemma {:induction false} PortFromSkips(s: string, i: nat, j: nat) returns (port: nat)
    requires i <= j <= |s| && forall k: nat, d: nat :: i <= k < j ==> !ColonPort(s, k, d)
    ensures port == PortFrom(s, i) == PortFrom(s, j)
    decreases j - i
  {
    port := PortFrom(s, i);
    if i < j {
      var next := PortSkips(s, i);
      var same := PortFromSkips(s, i + 1, j);
    }
  }

  /**
   * The scan finds what the pattern matches first. Its second alternative never changes the port: where it
   * matches, the first one matches later, at the colon before the same digits.
   */
  lemma ScanIsTheFirstMatch(text: string)
    ensures var s := Trimmed(text);
            && (forall i: nat, j: nat, d: nat ::
               FirstMatch(s, i, j, d) ==> EndpointPort(text) == ReadNat(s[j + 1..j + 1 + d]))
            && ((forall i: nat, j: nat, d: nat :: !MatchAt(s, i, j, d)) ==> EndpointPort(text) == 0)
  {
    var s := Trimmed(text);
    forall i: nat, j: nat, d: nat | FirstMatch(s, i, j, d) ensures EndpointPort(text) == ReadNat(s[j + 1..j + 1 + d]) {
      FirstColon(s, i, j, d);
      var port := PortFromSkips(s, 0, j);
      PortThere(s, j, d);
    }
    if forall i: nat, j: nat, d: nat :: !MatchAt(s, i, j, d) {
      assert forall k: nat, d: nat :: ColonPort(s, k, d) ==> MatchAt(s, k, k, d);
      var zero := PortFromSkips(s, 0, |s|);
    }
  }

  /** No colon before the digits of the first match has a port. */
  lemma FirstColon(s: string, i: nat, j: nat, d: nat)
    requires FirstMatch(s, i, j, d)
    ensures ColonPort(s, j, d) && forall k: nat, n: nat :: k < j ==> !ColonPort(s, k, n)
  {
    forall k: nat, n: nat | k < j ensures !ColonPort(s, k, n) {
      if k < i {
        assert !MatchAt(s, k, k, n);
      } else {
        InsideUrl(s, i, j, d, k);
        NoPort(s, k, n);
      }
    }
  }

  lemma InsideUrl(s: string, i: nat, j: nat, d: nat, k: nat)
    requires UrlPort(s, i, j, d) && i <= k < j
    ensures s[k] != ':' || !IsDigit(s[k + 1])
  {
    assert s[i..i + 3][1] == '/' && s[i..i + 3][2] == '/';
    assert k >= i + 3 ==> s[k] == s[i + 3..j][k - i - 3];
  }

  lemma NoPort(s: string, k: nat, n: nat)
    requires k + 1 < |s| && (s[k] != ':' || !IsDigit(s[k + 1]))
    ensures !ColonPort(s, k, n)
  {
    if n > 0 && k + 1 + n <= |s| {
      assert s[k + 1..k + 1 + n][0] == s[k + 1];
    }
  }

  // ---------- reading back ----------

  lemma {:induction false} TrimEndAfter(core: string, trail: string)
    requires core != "" && !White(core[|core| - 1]) && forall c <- trail :: White(c)
    ensures TrimEnd(core + trail) == core
  {
    if trail == "" {
      assert core + trail == core;
    } else {
      var n := |trail| - 1;
      TrimEndAfter(core, trail[..n]);
      assert (core + trail)[..|core| + n] == core + trail[..n] && trail[n] in trail;
    }
  }

  lemma {:induction false} TrimStartBefore(lead: string, rest: string)
    requires rest != "" && !White(rest[0]) && forall c <- lead :: White(c)
    ensures TrimStart(lead + rest) == rest
  {
    if lead == "" {
      assert lead + rest == rest;
    } else {
      TrimStartBefore(lead[1..], rest);
      assert (lead + rest)[1..] == lead[1..] + rest && lead[0] in lead;
    }
  }

  lemma {:induction false} ShownLength(n: nat, k: nat)
    requires k >= 1 && n < Power(k)
    ensures |ShowNat(n)| <= k && (n >= 10 ==> |ShowNat(n)| >= 2)
  {
    if n >= 10 {
      assert k > 1;
      ShownLength(n / 10, k - 1);
    }
  }

  /** What may come before the port: no colon in it is followed by a digit, as in "host" or "http://host". */
  predicate HostPart(s: string) {
    forall i :: 0 <= i < |s| && s[i] == ':' ==> i + 1 < |s| && !IsDigit(s[i + 1])
  }

  /**
   * Every endpoint with a port of two to five digits is read back, with or without a scheme, a path or blanks
   * around it.
   */
  lemma EndpointReadsBack(lead: string, host: string, port: nat, path: string, trail: string)
    requires (forall c <- lead :: White(c)) && (forall c <- trail :: White(c))
    requires HostPart(host) && 10 <= port <= 99999 && (path == "" || path[0] == '/')
    requires (host == "" || !White(host[0])) && (path == "" || !White(path[|path| - 1]))
    ensures EndpointPort(lead + (host + ":" + ShowNat(port) + path) + trail) == port
  {
    var digits, core := ShowNat(port), host + ":" + ShowNat(port) + path;
    ReadShowNat(port);
    TrimsToCore(lead, host, digits, path, trail);
    CorePort(host, digits, path, port);
    forall k: nat, d: nat | k < |host| ensures !ColonPort(core, k, d) {
      assert core[k] == host[k] && (k + 1 < |host| ==> core[k + 1] == host[k + 1]);
      NoPort(core, k, d);
    }
    var read := PortFromSkips(core, 0, |host|);
  }

  lemma TrimsToCore(lead: string, host: string, digits: string, path: string, trail: string)
    requires (forall c <- lead :: White(c)) && (forall c <- trail :: White(c)) && digits != "" && Digits(digits)
    requires (host == "" || !White(host[0])) && (path == "" || !White(path[|path| - 1]))
    ensures Trimmed(lead + (host + ":" + digits + path) + trail) == host + ":" + digits + path
  {
    var core := host + ":" + digits + path;
    assert core[0] == if host == "" then ':' else host[0];
    assert core[|core| - 1] == if path == "" then digits[|digits| - 1] else path[|path| - 1];
    assert digits[|digits| - 1] in digits;
    assert lead + core + trail == lead + (core + trail);
    TrimStartBefore(lead, core + trail);
    TrimEndAfter(core, trail);
  }

  lemma PortLength(port: nat)
    requires 10 <= port <= 99999
    ensures 2 <= |ShowNat(port)| <= 5
  {
    assert Power(2) == 100;
    assert Power(4) == 10000;
    ShownLength(port, 5);
  }

  lemma CoreShape(host: string, digits: string, path: string)
    requires Digits(digits) && 2 <= |digits| <= 5 && (path == "" || path[0] == '/')
    ensures var core, i := host + ":" + digits + path, |host|;
            ColonPort(core, i, |digits|) && core[i + 1..i + 1 + |digits|] == digits
  {
    var core, i, d := host + ":" + digits + path, |host|, |digits|;
    assert core[i + 1..i + 1 + d] == digits;
    assert path != "" ==> core[i + 1 + d] == path[0];
  }

  lemma CorePort(host: string, digits: string, path: string, port: nat)
    requires digits == ShowNat(port) && Digits(digits) && ReadNat(digits) == port && 10 <= port <= 99999
    requires path == "" || path[0] == '/'
    ensures var core := host + ":" + digits + path; PortFrom(core, |host|) == port
  {
    var core := host + ":" + digits + path;
    PortLength(port);
    CoreShape(host, digits, path);
    PortThere(core, |host|, |digits|);
  }

  lemma PortThere(s: string, i: nat, d: nat)
    requires ColonPort(s, i, d)
    ensures PortFrom(s, i) == ReadNat(s[i + 1..i + 1 + d])
  {
    assert PortDigits(s, i) == Some(d);
  }
}
