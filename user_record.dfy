/**
 * The user record the client keeps in memory and in durable storage, and the
 * text encoding used for the durable copy (standing for JSON.stringify and
 * JSON.parse in src/contexts/AuthContext.tsx).
 *
 * The encoding writes `{`, then each field as a quoted string in which `"` and
 * `\` are escaped by a backslash, then `}`; the role is written only when
 * present. The literal text `null` decodes to the JSON null value.
 */
module UserRecord {
  import opened Wrappers

  /** A user as the client holds it. The role is absent when the server sent none. */
  datatype User = User(id: string, name: string, email: string, role: Option<string>)

  /** What parsing a stored user entry can yield, as far as the session cares. */
  datatype Json = JsonNull | JsonUser(user: User)

  /** The escaped body of a quoted string. */
  function Escape(s: string): (r: string)
    ensures |r| >= |s|
  {
    if s == [] then []
    else (if s[0] == '"' || s[0] == '\\' then ['\\', s[0]] else [s[0]]) + Escape(s[1..])
  }

  function Quote(s: string): (q: string)
    ensures |q| >= |s| + 2 && q[0] == '"' && q[|q| - 1] == '"'
  {
    "\"" + Escape(s) + "\""
  }

  /**
   * Reads the body of a quoted string up to its closing quote, undoing the
   * escapes; yields the decoded text and what follows the closing quote.
   */
  function ReadBody(t: string): Option<(string, string)>
    decreases |t|
  {
    if t == [] then None
    else if t[0] == '"' then Some(([], t[1..]))
    else if t[0] == '\\' then
      if |t| < 2 then None
      else match ReadBody(t[2..])
        case None => None
        case Some(p) => Some(([t[1]] + p.0, p.1))
    else match ReadBody(t[1..])
      case None => None
      case Some(p) => Some(([t[0]] + p.0, p.1))
  }

  /** Reads one quoted string from the front of `t`. */
  function ReadQuoted(t: string): Option<(string, string)> {
    if t != [] && t[0] == '"' then ReadBody(t[1..]) else None
  }

  /** Reading back an escaped body returns the original text and leaves the rest. */
  lemma {:induction false} ReadBodyEscape(s: string, rest: string)
    ensures ReadBody(Escape(s) + "\"" + rest) == Some((s, rest))
  {
    var t := Escape(s) + "\"" + rest;
    if s == [] {
      assert t == "\"" + rest;
    } else {
      var tail := Escape(s[1..]) + "\"" + rest;
      ReadBodyEscape(s[1..], rest);
      if s[0] == '"' || s[0] == '\\' {
        assert t == ['\\', s[0]] + tail;
        assert t[2..] == tail;
      } else {
        assert t == [s[0]] + tail;
        assert t[1..] == tail;
      }
      assert [s[0]] + s[1..] == s;
    }
  }

  lemma ReadQuotedRoundTrip(s: string, rest: string)
    ensures ReadQuoted(Quote(s) + rest) == Some((s, rest))
  {
    var t := Quote(s) + rest;
    assert t[1..] == Escape(s) + "\"" + rest;
    ReadBodyEscape(s, rest);
  }

  /** The durable text of a user (JSON.stringify). */
  function Serialize(u: User): (r: string)
    ensures |r| >= 2 && r[0] == '{' && r[|r| - 1] == '}'
  {
    "{" + Quote(u.id) + Quote(u.name) + Quote(u.email)
        + RoleText(u.role) + "}"
  }

  /**
   * Parses a stored user entry (JSON.parse); None stands for a thrown
   * SyntaxError, or a value the model's `User` cannot hold.
   */
  function Parse(s: string): (r: Option<Json>)
    ensures r == Some(JsonNull) <==> s == "null"
    ensures r.Some? && r.value.JsonUser? ==> |s| >= 2 && s[0] == '{'
    ensures s == "" ==> r.None?
  {
    if s == "null" then Some(JsonNull)
    else if s == [] || s[0] != '{' then None
    else ParseFields(s[1..])
  }

  /** The fields of an object, after its opening brace: id, name, email, then the role part. */
  function ParseFields(t: string): Option<Json> {
    match ReadQuoted(t)
    case None => None
    case Some(p1) =>
      match ReadQuoted(p1.1)
      case None => None
      case Some(p2) =>
        match ReadQuoted(p2.1)
        case None => None
        case Some(p3) => ParseRole(User(p1.0, p2.0, p3.0, None), p3.1)
  }

  /** The closing brace, optionally preceded by a quoted role. */
  function ParseRole(base: User, t: string): Option<Json> {
    if t == "}" then Some(JsonUser(base))
    else match ReadQuoted(t)
      case None => None
      case Some(p) => if p.1 == "}" then Some(JsonUser(base.(role := Some(p.0)))) else None
  }

  function RoleText(role: Option<string>): string {
    match role
    case None => ""
    case Some(r) => Quote(r)
  }

  lemma ParseRoleRoundTrip(u: User)
    ensures ParseRole(u.(role := None), RoleText(u.role) + "}") == Some(JsonUser(u))
  {
    match u.role {
      case None =>
        assert RoleText(u.role) + "}" == "}";
      case Some(role) =>
        assert (RoleText(u.role) + "}")[0] == '"';
        ReadQuotedRoundTrip(role, "}");
    }
  }

  /** Three quoted fields in front of `rest` are read as id, name and email. */
  lemma ParseFieldsStep(id: string, name: string, email: string, rest: string)
    ensures ParseFields(Quote(id) + Quote(name) + Quote(email) + rest)
         == ParseRole(User(id, name, email, None), rest)
  {
    var r2 := Quote(email) + rest;
    var r1 := Quote(name) + r2;
    assert Quote(id) + Quote(name) + Quote(email) + rest == Quote(id) + r1;
    ReadQuotedRoundTrip(id, r1);
    ReadQuotedRoundTrip(name, r2);
    ReadQuotedRoundTrip(email, rest);
  }

  lemma ParseFieldsRoundTrip(u: User)
    ensures ParseFields(Quote(u.id) + Quote(u.name) + Quote(u.email) + (RoleText(u.role) + "}")) == Some(JsonUser(u))
  {
    ParseFieldsStep(u.id, u.name, u.email, RoleText(u.role) + "}");
    assert u.(role := None) == User(u.id, u.name, u.email, None);
    ParseRoleRoundTrip(u);
  }

  /** Every user survives being stored and read back. */
  lemma ParseSerialize(u: User)
    ensures Parse(Serialize(u)) == Some(JsonUser(u))
  {
    var body := Quote(u.id) + Quote(u.name) + Quote(u.email) + (RoleText(u.role) + "}");
    assert Serialize(u) == "{" + body;
    assert Serialize(u)[1..] == body;
    assert Serialize(u)[0] != "null"[0];
    ParseFieldsRoundTrip(u);
  }
}
