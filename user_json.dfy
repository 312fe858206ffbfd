/** The text stored under `user_data`: `JSON.stringify` of a user record
    `{id, username, email, role}`, and the reading of that text back. */
module UserJson {
  import opened Wrappers
  import opened Domain
  import Text

  function HexDigit(d: nat): (c: char)
    requires d < 16
  {
    if d < 10 then Text.DigitChar(d) else ('a' as int + d - 10) as char
  }

  /** The value of a hexadecimal digit in either case. */
  function HexValue(c: char): Option<nat>
  {
    if '0' <= c <= '9' then Some(c as int - '0' as int)
    else if 'a' <= c <= 'f' then Some(c as int - 'a' as int + 10)
    else if 'A' <= c <= 'F' then Some(c as int - 'A' as int + 10)
    else None
  }

  lemma HexValueOfDigit(d: nat)
    requires d < 16
    ensures HexValue(HexDigit(d)) == Some(d)
  {
  }

  /** How `JSON.stringify` writes one character inside a string literal:
      quote and backslash escaped, the five control characters with a short
      form as such, the other control characters as `\u00xx`. */
  function EscapeChar(c: char): (e: string)
    ensures |e| > 0
  {
    if c == '"' then "\\\""
    else if c == '\\' then "\\\\"
    else if c == 8 as char then "\\b"
    else if c == 12 as char then "\\f"
    else if c == '\n' then "\\n"
    else if c == '\r' then "\\r"
    else if c == '\t' then "\\t"
    else if c < 32 as char then "\\u00" + [HexDigit(c as int / 16), HexDigit(c as int % 16)]
    else [c]
  }

  function Escape(s: string): string
  {
    if s == [] then [] else EscapeChar(s[0]) + Escape(s[1..])
  }

  /** A string value as `JSON.stringify` writes it. */
  function Quote(s: string): string
  {
    "\"" + Escape(s) + "\""
  }

  const ID_KEY := "{\"id\":"
  const USERNAME_KEY := ",\"username\":"
  const EMAIL_KEY := ",\"email\":"
  const ROLE_KEY := ",\"role\":"

  /** `JSON.stringify({id, username, email, role})`: the keys in the order
      the object literal lists them, no whitespace. The text is assembled
      from its end: each tail starts at one key. */
  function Encode(u: User): string
  {
    ID_KEY + (Text.IntToString(u.id) + UsernameTail(u.username, u.email, u.role))
  }

  function UsernameTail(username: string, email: string, role: string): string
  {
    USERNAME_KEY + Quote(username) + EmailTail(email, role)
  }

  function EmailTail(email: string, role: string): string
  {
    EMAIL_KEY + Quote(email) + RoleTail(role)
  }

  function RoleTail(role: string): string
  {
    ROLE_KEY + Quote(role) + "}"
  }

  /** The four hexadecimal digits of a `\uXXXX` escape, when they are
      digits and do not name a surrogate. */
  function HexChar(h: string): Option<char>
    requires |h| == 4
  {
    var d0, d1, d2, d3 := HexValue(h[0]), HexValue(h[1]), HexValue(h[2]), HexValue(h[3]);
    if d0.None? || d1.None? || d2.None? || d3.None? then None
    else
      var v := ((d0.value * 16 + d1.value) * 16 + d2.value) * 16 + d3.value;
      if 0xD800 <= v < 0xE000 then None else Some(v as char)
  }

  /** One escape sequence at the start of `s` (which begins with a
      backslash): the character it stands for and its length. */
  function Unescape(s: string): (r: Option<(char, nat)>)
    requires |s| > 0 && s[0] == '\\'
    ensures r.Some? ==> 2 <= r.value.1 <= |s|
  {
    if |s| < 2 then None
    else
      var e := s[1];
      if e == '"' then Some(('"', 2))
      else if e == '\\' then Some(('\\', 2))
      else if e == '/' then Some(('/', 2))
      else if e == 'b' then Some((8 as char, 2))
      else if e == 'f' then Some((12 as char, 2))
      else if e == 'n' then Some(('\n', 2))
      else if e == 'r' then Some(('\r', 2))
      else if e == 't' then Some(('\t', 2))
      else if e == 'u' && |s| >= 6 && HexChar(s[2..6]).Some? then Some((HexChar(s[2..6]).value, 6))
      else None
  }

  function Prepend(c: char, r: Option<(string, string)>): Option<(string, string)>
  {
    match r
    case None => None
    case Some((x, rest)) => Some(([c] + x, rest))
  }

  /** The body of a string literal up to its closing quote: the characters
      it stands for and the text after the quote. A raw control character
      or a bad escape makes the text invalid. */
  function DecodeString(s: string): Option<(string, string)>
    decreases |s|
  {
    if s == [] then None
    else if s[0] == '"' then Some(([], s[1..]))
    else if s[0] == '\\' then
      match Unescape(s)
      case None => None
      case Some((c, n)) => Prepend(c, DecodeString(s[n..]))
    else if s[0] < 32 as char then None
    else Prepend(s[0], DecodeString(s[1..]))
  }

  /** A character written as itself reads back as itself. */
  lemma DecodePlainChar(c: char, t: string)
    requires c != '"' && c != '\\' && c >= 32 as char
    ensures DecodeString([c] + t) == Prepend(c, DecodeString(t))
  {
    assert ([c] + t)[1..] == t;
  }

  /** A two-character escape reads back as the character it stands for. */
  lemma DecodeShortEscape(c: char, t: string)
    requires c == '"' || c == '\\' || c == 8 as char || c == 12 as char || c == '\n' || c == '\r' || c == '\t'
    ensures DecodeString(EscapeChar(c) + t) == Prepend(c, DecodeString(t))
  {
    var s := EscapeChar(c) + t;
    assert |EscapeChar(c)| == 2 && EscapeChar(c)[0] == '\\';
    assert s[0] == '\\' && s[2..] == t;
    assert Unescape(s) == Some((c, 2));
  }

  /** A `\u00xx` escape reads back as the control character it stands for. */
  lemma DecodeUnicodeEscape(c: char, t: string)
    requires c < 32 as char && c != 8 as char && c != 12 as char && c != '\n' && c != '\r' && c != '\t'
    ensures DecodeString(EscapeChar(c) + t) == Prepend(c, DecodeString(t))
  {
    var hi, lo := c as int / 16, c as int % 16;
    HexValueOfDigit(hi);
    HexValueOfDigit(lo);
    var e := "\\u00" + [HexDigit(hi), HexDigit(lo)];
    assert EscapeChar(c) == e;
    var s := e + t;
    assert s[0] == '\\' && s[1] == 'u';
    assert s[2..6] == "00" + [HexDigit(hi), HexDigit(lo)];
    assert HexChar(s[2..6]) == Some(c);
    assert s[6..] == t;
    assert Unescape(s) == Some((c, 6));
  }

  lemma DecodeEscapedChar(c: char, t: string)
    ensures DecodeString(EscapeChar(c) + t) == Prepend(c, DecodeString(t))
  {
    if c == '"' || c == '\\' || c == 8 as char || c == 12 as char || c == '\n' || c == '\r' || c == '\t' {
      DecodeShortEscape(c, t);
    } else if c < 32 as char {
      DecodeUnicodeEscape(c, t);
    } else {
      DecodePlainChar(c, t);
    }
  }

  /** Reading an escaped string back gives the original characters and
      stops right after the closing quote. */
  lemma {:induction false} DecodeEscaped(x: string, rest: string)
    ensures DecodeString(Escape(x) + "\"" + rest) == Some((x, rest))
  {
    if x == [] {
      assert Escape(x) + "\"" + rest == ['"'] + rest;
      assert (['"'] + rest)[1..] == rest;
    } else {
      DecodeEscaped(x[1..], rest);
      assert Escape(x) + "\"" + rest == EscapeChar(x[0]) + (Escape(x[1..]) + "\"" + rest);
      DecodeEscapedChar(x[0], Escape(x[1..]) + "\"" + rest);
      assert [x[0]] + x[1..] == x;
    }
  }

  /** The digits at the start of `s` as a number, and the text after them.
      JSON writes a number without leading zeros: "0" alone is fine, but a
      run of digits that starts with '0' and goes on is a syntax error. */
  function DecodeNat(s: string): Option<(int, string)>
  {
    var ds := Text.LeadingDigits(s);
    if ds == [] || (|ds| > 1 && ds[0] == '0') then None
    else Some((Text.DigitsValue(ds) as int, s[|ds|..]))
  }

  /** A JSON integer at the start of `s`, and the text after it. */
  function DecodeInt(s: string): Option<(int, string)>
  {
    if s != [] && s[0] == '-' then
      match DecodeNat(s[1..])
      case None => None
      case Some((n, rest)) => Some((0 - n, rest))
    else DecodeNat(s)
  }

  lemma DecodeNatOf(ds: string, rest: string)
    requires Text.AllDigits(ds) && ds != [] && (ds[0] == '0' ==> |ds| == 1)
    requires rest == [] || !Text.IsDigit(rest[0])
    ensures DecodeNat(ds + rest) == Some((Text.DigitsValue(ds) as int, rest))
  {
    Text.LeadingDigitsOf(ds, rest);
    assert (ds + rest)[|ds|..] == rest;
  }

  /** A number with a leading zero, signed or not, does not read. */
  lemma LeadingZeroRejected(ds: string, rest: string)
    requires Text.AllDigits(ds) && |ds| > 1 && ds[0] == '0'
    ensures DecodeInt(ds + rest) == None
    ensures DecodeInt("-" + ds + rest) == None
  {
    var ls := Text.LeadingDigits(ds + rest);
    assert Text.LeadingDigits(ds + rest) == ds + Text.LeadingDigits(rest) by {
      LeadingDigitsAppend(ds, rest);
    }
    assert ls[0] == '0' && |ls| > 1;
    assert ("-" + ds + rest)[1..] == ds + rest;
  }

  lemma {:induction false} LeadingDigitsAppend(ds: string, rest: string)
    requires Text.AllDigits(ds)
    ensures Text.LeadingDigits(ds + rest) == ds + Text.LeadingDigits(rest)
  {
    if ds != [] {
      LeadingDigitsAppend(ds[1..], rest);
      assert (ds + rest)[1..] == ds[1..] + rest;
      assert (ds + rest)[0] == ds[0];
      assert ds == [ds[0]] + ds[1..];
    } else {
      assert ds + rest == rest;
    }
  }

  lemma DecodeIntOf(n: int, rest: string)
    requires rest == [] || !Text.IsDigit(rest[0])
    ensures DecodeInt(Text.IntToString(n) + rest) == Some((n, rest))
  {
    var m: nat := if n < 0 then -n else n;
    var ds := Text.NatToString(m);
    Text.NatToStringValue(m);
    Text.NatToStringLeadingZero(m);
    assert ds[0] == '0' ==> ds == "0";
    DecodeNatOf(ds, rest);
    if n < 0 {
      assert Text.IntToString(n) == "-" + ds;
      var s := Text.IntToString(n) + rest;
      assert s == ['-'] + (ds + rest);
      assert s[1..] == ds + rest;
    } else {
      assert Text.IntToString(n) == ds;
      assert (ds + rest)[0] == ds[0] && Text.IsDigit(ds[0]);
    }
  }

  /** The text after `prefix`, when `s` starts with it. */
  function Expect(prefix: string, s: string): (r: Option<string>)
    ensures r.Some? ==> s == prefix + r.value
  {
    if |prefix| <= |s| && s[..|prefix|] == prefix then Some(s[|prefix|..]) else None
  }

  lemma ExpectOf(prefix: string, t: string)
    ensures Expect(prefix, prefix + t) == Some(t)
  {
    assert (prefix + t)[..|prefix|] == prefix;
    assert (prefix + t)[|prefix|..] == t;
  }

  /** A quoted string at the start of `s`, and the text after it. */
  function DecodeQuoted(key: string, s: string): Option<(string, string)>
  {
    match Expect(key + "\"", s)
    case None => None
    case Some(t) => DecodeString(t)
  }

  lemma DecodeQuotedOf(key: string, x: string, rest: string)
    ensures DecodeQuoted(key, key + Quote(x) + rest) == Some((x, rest))
  {
    assert key + Quote(x) + rest == (key + "\"") + (Escape(x) + "\"" + rest);
    ExpectOf(key + "\"", Escape(x) + "\"" + rest);
    DecodeEscaped(x, rest);
  }

  /** `JSON.parse` of the stored text, for the layout `Encode` writes:
      the user it describes, or `None` when the text is not that layout.
      Each stage reads one field and hands the rest to the next. */
  function Decode(s: string): Option<User>
  {
    match Expect(ID_KEY, s)
    case None => None
    case Some(t) =>
      match DecodeInt(t)
      case None => None
      case Some((id, rest)) => DecodeUsername(id, rest)
  }

  function DecodeUsername(id: int, s: string): Option<User>
  {
    match DecodeQuoted(USERNAME_KEY, s)
    case None => None
    case Some((username, rest)) => DecodeEmail(id, username, rest)
  }

  function DecodeEmail(id: int, username: string, s: string): Option<User>
  {
    match DecodeQuoted(EMAIL_KEY, s)
    case None => None
    case Some((email, rest)) => DecodeRole(id, username, email, rest)
  }

  function DecodeRole(id: int, username: string, email: string, s: string): Option<User>
  {
    match DecodeQuoted(ROLE_KEY, s)
    case None => None
    case Some((role, rest)) => if rest == "}" then Some(User(id, username, email, role)) else None
  }

  lemma DecodeRoleOf(id: int, username: string, email: string, role: string)
    ensures DecodeRole(id, username, email, RoleTail(role)) == Some(User(id, username, email, role))
  {
    DecodeQuotedOf(ROLE_KEY, role, "}");
  }

  lemma DecodeEmailOf(id: int, username: string, email: string, role: string)
    ensures DecodeEmail(id, username, EmailTail(email, role)) == Some(User(id, username, email, role))
  {
    DecodeQuotedOf(EMAIL_KEY, email, RoleTail(role));
    DecodeRoleOf(id, username, email, role);
  }

  lemma DecodeUsernameOf(id: int, username: string, email: string, role: string)
    ensures DecodeUsername(id, UsernameTail(username, email, role)) == Some(User(id, username, email, role))
  {
    DecodeQuotedOf(USERNAME_KEY, username, EmailTail(email, role));
    DecodeEmailOf(id, username, email, role);
  }

  /** A record whose id is written with a leading zero, such as
      `{"id":01,...}`, is not JSON, so it does not read as a user. */
  lemma LeadingZeroIdRejected(ds: string, tail: string)
    requires Text.AllDigits(ds) && |ds| > 1 && ds[0] == '0'
    ensures Decode(ID_KEY + ds + tail) == None
    ensures Decode(ID_KEY + "-" + ds + tail) == None
  {
    ExpectOf(ID_KEY, ds + tail);
    assert ID_KEY + ds + tail == ID_KEY + (ds + tail);
    ExpectOf(ID_KEY, "-" + ds + tail);
    assert ID_KEY + "-" + ds + tail == ID_KEY + ("-" + ds + tail);
    LeadingZeroRejected(ds, tail);
  }

  /** What is stored for a user reads back as that same user. */
  lemma DecodeEncode(u: User)
    ensures Decode(Encode(u)) == Some(u)
  {
    var tail := UsernameTail(u.username, u.email, u.role);
    assert tail[0] == ',';
    ExpectOf(ID_KEY, Text.IntToString(u.id) + tail);
    DecodeIntOf(u.id, tail);
    DecodeUsernameOf(u.id, u.username, u.email, u.role);
  }
}
