/**
 * The text stored under the session key: `JSON.stringify({user, sessionToken})`
 * for a user `{id, email}` (each a string or null) or a null user, and the
 * reader of that text used when the session is restored.
 */
module SessionCodec {

  import opened Wrappers
  import opened Domain

  // ---------------------------------------------------------------------------
  // Writing

  function HexDigit(d: nat): char
    requires d < 16
  {
    "0123456789abcdef"[d]
  }

  /** JSON.stringify's escape for one character of a string. */
  function EscapeChar(c: char): (r: string)
    ensures |r| > 0 && r[0] != '"'
  {
    if c == '"' then "\\\""
    else if c == '\\' then "\\\\"
    else if c == '\U{8}' then "\\b"
    else if c == '\U{C}' then "\\f"
    else if c == '\n' then "\\n"
    else if c == '\r' then "\\r"
    else if c == '\t' then "\\t"
    else if c < ' ' then "\\u00" + [HexDigit(c as int / 16), HexDigit(c as int % 16)]
    else [c]
  }

  function Escape(s: string): string {
    if s == [] then "" else EscapeChar(s[0]) + Escape(s[1..])
  }

  function Quote(s: string): string {
    "\"" + Escape(s) + "\""
  }

  function EncodeNullable(o: Option<string>): string {
    match o
    case None => "null"
    case Some(s) => Quote(s)
  }

  function EncodeUser(u: Option<User>): string {
    match u
    case None => "null"
    case Some(User(id, email)) => "{\"id\":" + EncodeNullable(id) + ",\"email\":" + EncodeNullable(email) + "}"
  }

  /** The session record as persistAuth writes it. */
  function EncodeSession(user: Option<User>, token: string): string {
    "{\"user\":" + EncodeUser(user) + ",\"sessionToken\":" + Quote(token) + "}"
  }

  // ---------------------------------------------------------------------------
  // Reading

  /** What reading the stored text yields: unparseable, or the two fields read back. */
  datatype Decoded = Malformed | Parsed(user: Option<User>, sessionToken: Option<string>)

  /** The rest of s after the literal lit, if s starts with it. */
  function Lit(s: string, lit: string): (r: Option<string>)
    ensures r.Some? ==> |r.value| < |s| || lit == ""
    ensures r.Some? ==> |r.value| <= |s|
  {
    if |lit| <= |s| && s[..|lit|] == lit then Some(s[|lit|..]) else None
  }

  function HexValue(c: char): Option<nat> {
    if '0' <= c <= '9' then Some(c as int - '0' as int)
    else if 'a' <= c <= 'f' then Some(c as int - 'a' as int + 10)
    else if 'A' <= c <= 'F' then Some(c as int - 'A' as int + 10)
    else None
  }

  /** The character a `\uXXXX` escape names (surrogate halves are refused). */
  function UnicodeEscape(h: string): (r: Option<char>)
    requires |h| == 4
  {
    match (HexValue(h[0]), HexValue(h[1]), HexValue(h[2]), HexValue(h[3]))
    case (Some(a), Some(b), Some(c), Some(d)) =>
      var n := 4096 * a + 256 * b + 16 * c + d;
      if n < 0xD800 || 0xE000 <= n < 0x10000 then Some(n as char) else None
    case _ => None
  }

  /** One character of a string body (after the opening quote and before the closing one). */
  function NextChar(s: string): (r: Option<(char, string)>)
    requires s != [] && s[0] != '"'
    ensures r.Some? ==> |r.value.1| < |s|
  {
    if s[0] == '\\' then
      if |s| < 2 then None
      else if s[1] == '"' then Some(('"', s[2..]))
      else if s[1] == '\\' then Some(('\\', s[2..]))
      else if s[1] == '/' then Some(('/', s[2..]))
      else if s[1] == 'b' then Some(('\U{8}', s[2..]))
      else if s[1] == 'f' then Some(('\U{C}', s[2..]))
      else if s[1] == 'n' then Some(('\n', s[2..]))
      else if s[1] == 'r' then Some(('\r', s[2..]))
      else if s[1] == 't' then Some(('\t', s[2..]))
      else if s[1] == 'u' && |s| >= 6 then
        match UnicodeEscape(s[2..6])
        case Some(c) => Some((c, s[6..]))
        case None => None
      else None
    else if s[0] < ' ' then None
    else Some((s[0], s[1..]))
  }

  /** The characters of a string body up to its closing quote, and what follows the quote. */
  function StringBody(s: string): (r: Option<(string, string)>)
    ensures r.Some? ==> |r.value.1| < |s|
    decreases |s|
  {
    if s == [] then None
    else if s[0] == '"' then Some(("", s[1..]))
    else
      match NextChar(s)
      case None => None
      case Some((c, rest)) =>
        match StringBody(rest)
        case None => None
        case Some((body, after)) => Some(([c] + body, after))
  }

  function ParseQuoted(s: string): Option<(string, string)> {
    match Lit(s, "\"")
    case None => None
    case Some(rest) => StringBody(rest)
  }

  function ParseNullable(s: string): Option<(Option<string>, string)> {
    match Lit(s, "null")
    case Some(rest) => Some((None, rest))
    case None =>
      match ParseQuoted(s)
      case None => None
      case Some((v, rest)) => Some((Some(v), rest))
  }

  function ParseUser(s: string): Option<(Option<User>, string)> {
    match Lit(s, "null")
    case Some(rest) => Some((None, rest))
    case None =>
      match Lit(s, "{\"id\":")
      case None => None
      case Some(s1) =>
        match ParseNullable(s1)
        case None => None
        case Some((id, s2)) =>
          match Lit(s2, ",\"email\":")
          case None => None
          case Some(s3) =>
            match ParseNullable(s3)
            case None => None
            case Some((email, s4)) =>
              match Lit(s4, "}")
              case None => None
              case Some(s5) => Some((Some(User(id, email)), s5))
  }

  /** JSON.parse restricted to the record shape persistAuth writes. */
  function DecodeSession(s: string): Decoded {
    match Lit(s, "{\"user\":")
    case None => Malformed
    case Some(s1) =>
      match ParseUser(s1)
      case None => Malformed
      case Some((user, s2)) =>
        match Lit(s2, ",\"sessionToken\":")
        case None => Malformed
        case Some(s3) =>
          match ParseNullable(s3)
          case None => Malformed
          case Some((token, s4)) =>
            if s4 == "}" then Parsed(user, token) else Malformed
  }

  // ---------------------------------------------------------------------------
  // Round trip

  lemma LitPrefix(lit: string, rest: string)
    ensures Lit(lit + rest, lit) == Some(rest)
  {
    assert (lit + rest)[..|lit|] == lit;
    assert (lit + rest)[|lit|..] == rest;
  }

  lemma {:induction false} NextCharOfEscape(c: char, rest: string)
    ensures EscapeChar(c) + rest != [] && (EscapeChar(c) + rest)[0] != '"'
    ensures NextChar(EscapeChar(c) + rest) == Some((c, rest))
  {
    var t := EscapeChar(c) + rest;
    if c == '"' || c == '\\' || c == '\U{8}' || c == '\U{C}' || c == '\n' || c == '\r' || c == '\t' {
      assert t[2..] == rest;
    } else if c < ' ' {
      var hi, lo := c as int / 16, c as int % 16;
      assert t == ['\\', 'u', '0', '0', HexDigit(hi), HexDigit(lo)] + rest;
      assert t[2..6] == ['0', '0', HexDigit(hi), HexDigit(lo)];
      assert HexValue(HexDigit(hi)) == Some(hi);
      assert HexValue(HexDigit(lo)) == Some(lo);
      assert t[6..] == rest;
    } else {
      assert t[1..] == rest;
    }
  }

  /** The string reader inverts the string writer. */
  lemma {:induction false} StringBodyOfEscape(s: string, rest: string)
    ensures StringBody(Escape(s) + "\"" + rest) == Some((s, rest))
    decreases |s|
  {
    if s == [] {
      assert Escape(s) + "\"" + rest == "\"" + rest;
      assert ("\"" + rest)[1..] == rest;
    } else {
      var tail := Escape(s[1..]) + "\"" + rest;
      assert Escape(s) + "\"" + rest == EscapeChar(s[0]) + tail;
      NextCharOfEscape(s[0], tail);
      StringBodyOfEscape(s[1..], rest);
      assert [s[0]] + s[1..] == s;
    }
  }

  lemma {:induction false} QuotedRoundTrip(v: string, rest: string)
    ensures ParseQuoted(Quote(v) + rest) == Some((v, rest))
  {
    assert Quote(v) + rest == "\"" + (Escape(v) + "\"" + rest);
    LitPrefix("\"", Escape(v) + "\"" + rest);
    StringBodyOfEscape(v, rest);
  }

  lemma {:induction false} NullableRoundTrip(o: Option<string>, rest: string)
    ensures ParseNullable(EncodeNullable(o) + rest) == Some((o, rest))
  {
    match o
    case None => LitPrefix("null", rest);
    case Some(v) =>
      var t := Quote(v) + rest;
      assert t[0] == '"';
      assert Lit(t, "null") == None;
      QuotedRoundTrip(v, rest);
  }

  lemma {:induction false} UserRoundTrip(u: Option<User>, rest: string)
    ensures ParseUser(EncodeUser(u) + rest) == Some((u, rest))
  {
    match u
    case None => LitPrefix("null", rest);
    case Some(User(id, email)) =>
      var s5 := rest;
      var s4 := "}" + s5;
      var s3 := EncodeNullable(email) + s4;
      var s2 := ",\"email\":" + s3;
      var s1 := EncodeNullable(id) + s2;
      var s := "{\"id\":" + s1;
      assert EncodeUser(u) + rest == s;
      assert s[0] == '{';
      assert Lit(s, "null") == None;
      LitPrefix("{\"id\":", s1);
      NullableRoundTrip(id, s2);
      LitPrefix(",\"email\":", s3);
      NullableRoundTrip(email, s4);
      LitPrefix("}", s5);
  }

  /** Reading back what persistAuth wrote yields the same user and token. */
  lemma {:induction false} SessionRoundTrip(user: Option<User>, token: string)
    ensures DecodeSession(EncodeSession(user, token)) == Parsed(user, Some(token))
  {
    var s3 := Quote(token) + "}";
    var s2 := ",\"sessionToken\":" + s3;
    var s1 := EncodeUser(user) + s2;
    var e := EncodeSession(user, token);
    assert e == "{\"user\":" + s1;
    LitPrefix("{\"user\":", s1);
    UserRoundTrip(user, s2);
    LitPrefix(",\"sessionToken\":", s3);
    NullableRoundTrip(Some(token), "}");
    DecodeSteps(e, s1, s2, s3, user, Some(token));
  }

  lemma DecodeSteps(s: string, s1: string, s2: string, s3: string, user: Option<User>, token: Option<string>)
    requires Lit(s, "{\"user\":") == Some(s1)
    requires ParseUser(s1) == Some((user, s2))
    requires Lit(s2, ",\"sessionToken\":") == Some(s3)
    requires ParseNullable(s3) == Some((token, "}"))
    ensures DecodeSession(s) == Parsed(user, token)
  {
  }
}
