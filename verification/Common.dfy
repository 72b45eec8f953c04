/** Shared vocabulary: options, results, the token grammar, and event identities. */
module Common {

  datatype Option<+T> = None | Some(value: T)

  datatype Result<+T, +E> = Success(value: T) | Failure(error: E)

  /** Seconds since the epoch; the stores keep them as SQLite REAL values. */
  type Time = real

  /** A field of a decoded JSON object as the collectors read it: missing, a string, or anything else. */
  datatype Field = Absent | Text(s: string) | Other

  predicate TokenChar(c: char) {
    'A' <= c <= 'Z' || 'a' <= c <= 'z' || '0' <= c <= '9' || c in "_.:@/-"
  }

  /** The token grammar of service_audit.py: one to 160 characters of a closed alphabet. */
  predicate Token(s: string) {
    0 < |s| <= 160 && forall c <- s :: TokenChar(c)
  }

  /** The name of a service unit, as systemd_posture.py matches it. */
  predicate UnitName(s: string) {
    |s| > 8 && s[|s| - 8..] == ".service"
    && forall c <- s[..|s| - 8] :: 'A' <= c <= 'Z' || 'a' <= c <= 'z' || '0' <= c <= '9' || c in "_.@:-"
  }

  predicate TokenField(f: Field) {
    f.Text? && Token(f.s)
  }

  predicate Digits(s: string) {
    forall i :: 0 <= i < |s| ==> '0' <= s[i] <= '9'
  }

  predicate BootId(s: string) {
    |s| == 32 && forall c <- s :: 'a' <= c <= 'f' || '0' <= c <= '9'
  }

  /**
   * What an event digest is computed from. SHA-256 is treated as injective, so an
   * event identity is represented by its preimage: a boot and journal cursor, or a
   * probe and the number of its transition.
   */
  datatype Key = Journal(boot: string, cursor: string) | Probe(probe: string, sequence: nat)

  ghost predicate Injective(rank: Key -> nat) {
    forall a: Key, b: Key :: rank(a) == rank(b) ==> a == b
  }
}
