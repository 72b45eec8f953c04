/** Decoded JSON values, and the closed-schema checks of the broker protocol. */
module JsonValues {
  import opened Common

  datatype Json =
    | Null
    | Bool(b: bool)
    | Int(n: int)
    | Float(r: real)
    | Str(s: string)
    | Arr(items: seq<Json>)
    | Obj(fields: map<string, Json>)
  {
    /** `value.get(key)`, which answers null for a missing key. */
    function Get(key: string): Json {
      if Obj? && key in fields then fields[key] else Null
    }

    predicate Has(key: string) {
      Obj? && key in fields
    }
  }

  /** An object with exactly these fields. */
  predicate Exact(v: Json, names: set<string>) {
    v.Obj? && v.fields.Keys == names
  }

  predicate Identifier(v: Json) {
    v.Str? && 0 < |v.s| <= 512
  }

  predicate OneOf(v: Json, choices: set<string>) {
    v.Str? && v.s in choices
  }

  function Utf8Length(s: string): nat {
    if s == "" then 0
    else
      var c := s[|s| - 1] as int;
      (if c < 0x80 then 1 else if c < 0x800 then 2 else if c < 0x10000 then 3 else 4) + Utf8Length(s[..|s| - 1])
  }

  predicate AsciiAlnum(c: char) {
    'A' <= c <= 'Z' || 'a' <= c <= 'z' || '0' <= c <= '9'
  }

  function Nullable(s: Option<string>): Json {
    if s.Some? then Str(s.value) else Null
  }

  /** A text input of one item, as turn/start and turn/steer carry it. */
  predicate TextInput(v: Json) {
    && v.Arr? && |v.items| == 1
    && Exact(v.items[0], {"type", "text", "text_elements"})
    && v.items[0].Get("type") == Str("text") && v.items[0].Get("text").Str?
       && v.items[0].Get("text_elements") == Arr([])
  }

  /** uuid.UUID(s) exists and prints as s: the canonical lower-case form. */
  predicate CanonicalUuid(s: string) {
    |s| == 36 && forall i :: 0 <= i < 36 ==>
      if i in {8, 13, 18, 23} then s[i] == '-' else '0' <= s[i] <= '9' || 'a' <= s[i] <= 'f'
  }
}
