/**
  The one JSON document the application stores: the signed-in user object
  `{"id":…,"name":…,"email":…,"role":…}`. `EncodeUser` stands for
  `JSON.stringify` and `ParseUser` for `JSON.parse` on that shape; only the
  escapes for `"` and `\` are produced and understood.
*/
module Json {
  import opened Wrappers
  import opened JsString

  datatype UserRecord = UserRecord(id: string, name: string, email: string, role: string)

  /** One character as it appears inside a JSON string literal. */
  function EscapeChar(c: char): string {
    if c == '"' then "\\\"" else if c == '\\' then "\\\\" else [c]
  }

  /** The body of a JSON string literal for `s` (without the quotes). */
  function Escape(s: string): string {
    if s == [] then [] else EscapeChar(s[0]) + Escape(s[1..])
  }

  /** Reads a string-literal body up to its closing quote; returns the text and what follows. */
  function ParseStringBody(s: string): Option<(string, string)>
    decreases |s|
  {
    if s == [] then None
    else if s[0] == '"' then Some(([], s[1..]))
    else if s[0] == '\\' then
      if |s| >= 2 && (s[1] == '"' || s[1] == '\\') then
        match ParseStringBody(s[2..])
        case None => None
        case Some(p) => Some(([s[1]] + p.0, p.1))
      else None
    else
      match ParseStringBody(s[1..])
      case None => None
      case Some(p) => Some(([s[0]] + p.0, p.1))
  }

  /** Reading back an escaped string stops at its closing quote and returns the original. */
  lemma {:induction false} ParseEscaped(x: string, rest: string)
    ensures ParseStringBody(Escape(x) + "\"" + rest) == Some((x, rest))
  {
    if x == [] {
      assert Escape(x) + "\"" + rest == "\"" + rest;
    } else {
      ParseEscaped(x[1..], rest);
      var tail := Escape(x[1..]) + "\"" + rest;
      assert Escape(x) + "\"" + rest == EscapeChar(x[0]) + tail;
      if x[0] == '"' || x[0] == '\\' {
        assert (EscapeChar(x[0]) + tail)[2..] == tail;
      } else {
        assert (EscapeChar(x[0]) + tail)[1..] == tail;
      }
      assert [x[0]] + x[1..] == x;
    }
  }

  /** Consumes the literal `lit` at the front of `s`. */
  function Expect(lit: string, s: string): Option<string> {
    if IsPrefix(lit, s) then Some(s[|lit|..]) else None
  }

  /** Reads `lit` followed by a string-literal body. */
  function Field(lit: string, s: string): Option<(string, string)> {
    match Expect(lit, s)
    case None => None
    case Some(t) => ParseStringBody(t)
  }

  const IdKey: string := "{\"id\":\""
  const NameKey: string := ",\"name\":\""
  const EmailKey: string := ",\"email\":\""
  const RoleKey: string := ",\"role\":\""

  /** `lit` followed by the string literal body of `x`, its closing quote, then `rest`. */
  function Member(lit: string, x: string, rest: string): string {
    lit + Escape(x) + "\"" + rest
  }

  /** `JSON.stringify(user)`. */
  function EncodeUser(u: UserRecord): string {
    Member(IdKey, u.id, Member(NameKey, u.name, Member(EmailKey, u.email, Member(RoleKey, u.role, "}"))))
  }

  /** `JSON.parse(text)` for a stored user; None is a parse error (a thrown SyntaxError). */
  function ParseUser(text: string): Option<UserRecord> {
    match Field(IdKey, text)
    case None => None
    case Some(a) =>
      match Field(NameKey, a.1)
      case None => None
      case Some(b) =>
        match Field(EmailKey, b.1)
        case None => None
        case Some(c) =>
          match Field(RoleKey, c.1)
          case None => None
          case Some(d) =>
            if d.1 == "}" then Some(UserRecord(a.0, b.0, c.0, d.0)) else None
  }

  lemma FieldOf(lit: string, x: string, rest: string)
    ensures Field(lit, Member(lit, x, rest)) == Some((x, rest))
  {
    var s := Member(lit, x, rest);
    assert s[..|lit|] == lit;
    assert s[|lit|..] == Escape(x) + "\"" + rest;
    ParseEscaped(x, rest);
  }

  /** Parsing what was stringified gives the same user back. */
  lemma ParseEncodeUser(u: UserRecord)
    ensures ParseUser(EncodeUser(u)) == Some(u)
  {
    var r4 := "}";
    var r3 := Member(RoleKey, u.role, r4);
    var r2 := Member(EmailKey, u.email, r3);
    var r1 := Member(NameKey, u.name, r2);
    FieldOf(IdKey, u.id, r1);
    FieldOf(NameKey, u.name, r2);
    FieldOf(EmailKey, u.email, r3);
    FieldOf(RoleKey, u.role, r4);
  }
}
