/**
 * The user profile of the client (IUser) and its serialised form in device
 * storage: JSON.stringify on the way in, JSON.parse on the way out.
 *
 * Encode writes what JSON.stringify writes for a plain object with the fields
 * id, name, email in that order: no whitespace, and strings quoted with the
 * escapes of ECMAScript's QuoteJSONString (short escapes for quote, backslash,
 * backspace, tab, newline, form feed and carriage return; \u00xx with
 * lower-case hexadecimal digits for the other control characters).
 * Decode accepts every JSON string escape inside the values except \u
 * escapes naming surrogate code units, and only that
 * object shape.
 */
module UserJson {
  import opened Wrappers

  datatype User = User(id: string, name: string, email: string)

  /** The value of a hexadecimal digit of either case. */
  function HexValue(c: char): (r: Option<nat>)
    ensures r.Some? ==> r.value < 16
  {
    if '0' <= c <= '9' then Some(c as int - '0' as int)
    else if 'a' <= c <= 'f' then Some(c as int - 'a' as int + 10)
    else if 'A' <= c <= 'F' then Some(c as int - 'A' as int + 10)
    else None
  }

  /** The lower-case hexadecimal digit for n. */
  function HexDigit(n: nat): (c: char)
    requires n < 16
    ensures HexValue(c) == Some(n)
  {
    if n < 10 then ('0' as int + n) as char else ('a' as int + n - 10) as char
  }

  /** How JSON.stringify writes one character inside a string literal. */
  function EscapeChar(c: char): (r: string)
    ensures |r| > 0
  {
    if c == '"' then ['\\', '"']
    else if c == '\\' then ['\\', '\\']
    else if c == '\U{8}' then ['\\', 'b']
    else if c == '\t' then ['\\', 't']
    else if c == '\n' then ['\\', 'n']
    else if c == '\U{C}' then ['\\', 'f']
    else if c == '\r' then ['\\', 'r']
    else if c < ' ' then ['\\', 'u', '0', '0', HexDigit(c as int / 16), HexDigit(c as int % 16)]
    else [c]
  }

  function Escape(s: string): string
  {
    if s == [] then [] else EscapeChar(s[0]) + Escape(s[1..])
  }

  /** A string literal: the escaped characters between double quotes. */
  function Quote(s: string): string
  {
    ['"'] + Escape(s) + ['"']
  }

  /**
   * Reads one escape sequence; t is what follows the backslash. Gives the
   * character and how many characters of t the escape used. A \u escape that
   * names a surrogate code unit is refused.
   */
  function Unescape(t: string): (r: Option<(char, nat)>)
    ensures r.Some? ==> 1 <= r.value.1 <= |t|
  {
    if t == [] then None
    else if t[0] == '"' then Some(('"', 1))
    else if t[0] == '\\' then Some(('\\', 1))
    else if t[0] == '/' then Some(('/', 1))
    else if t[0] == 'b' then Some(('\U{8}', 1))
    else if t[0] == 'f' then Some(('\U{C}', 1))
    else if t[0] == 'n' then Some(('\n', 1))
    else if t[0] == 'r' then Some(('\r', 1))
    else if t[0] == 't' then Some(('\t', 1))
    else if t[0] == 'u' && |t| >= 5 then
      match (HexValue(t[1]), HexValue(t[2]), HexValue(t[3]), HexValue(t[4]))
      case (Some(a), Some(b), Some(c), Some(d)) =>
        var v := ((a * 16 + b) * 16 + c) * 16 + d;
        if v < 0xD800 || 0xE000 <= v then Some((v as char, 5)) else None
      case _ => None
    else None
  }

  /** t is what remains of s after some prefix of it has been read. */
  predicate IsSuffix(t: string, s: string)
  {
    |t| <= |s| && t == s[|s| - |t|..]
  }

  lemma SuffixTransitive(t: string, u: string, s: string)
    requires IsSuffix(t, u) && IsSuffix(u, s)
    ensures IsSuffix(t, s)
  {
    assert s[|s| - |t|..] == s[|s| - |u|..][|u| - |t|..];
  }

  /** A non-empty suffix ends with the last character of the whole. */
  lemma SuffixLast(t: string, s: string)
    requires IsSuffix(t, s) && |t| > 0
    ensures s[|s| - 1] == t[|t| - 1]
  {
    assert t[|t| - 1] == s[|s| - |t|..][|t| - 1];
  }

  function Cons(c: char, r: Option<(string, string)>): (r': Option<(string, string)>)
    ensures r'.Some? <==> r.Some?
    ensures r.Some? ==> r'.value.1 == r.value.1
  {
    match r
    case None => None
    case Some((x, rest)) => Some(([c] + x, rest))
  }

  /**
   * Reads the characters of a string literal whose opening quote has been
   * consumed, up to and including the closing quote. Gives the decoded
   * characters and what follows the closing quote. A raw control character
   * or a bad escape is an error, as in JSON.parse.
   */
  function ParseChars(s: string): Option<(string, string)>
    decreases |s|
  {
    if s == [] then None
    else if s[0] == '"' then Some(([], s[1..]))
    else if s[0] < ' ' then None
    else if s[0] == '\\' then
      match Unescape(s[1..])
      case None => None
      case Some((c, n)) => Cons(c, ParseChars(s[1 + n..]))
    else Cons(s[0], ParseChars(s[1..]))
  }

  const IdKey: string := "{\"id\":"
  const NameKey: string := ",\"name\":"
  const EmailKey: string := ",\"email\":"

  /** Reads key, then a string literal; gives its value and what follows it. */
  function Field(key: string, s: string): (r: Option<(string, string)>)
    ensures r.Some? ==> key < s
  {
    if |key| < |s| && s[..|key|] == key && s[|key|] == '"' then ParseChars(s[|key| + 1..])
    else None
  }

  /** JSON.stringify(user). Never empty, so always truthy in the restore's `token && user` test. */
  function Encode(u: User): (r: string)
    ensures |r| > 0 && r[0] == '{' && r[|r| - 1] == '}'
  {
    IdKey + Quote(u.id) + (NameKey + Quote(u.name) + (EmailKey + Quote(u.email) + "}"))
  }

  /**
   * JSON.parse(s) read as a user; None where the model's parse fails. Only
   * an object literal that opens with the id key is accepted.
   */
  function Decode(s: string): (r: Option<User>)
    ensures r.Some? ==> IdKey < s && s[|s| - 1] == '}'
  {
    match Field(IdKey, s)
    case None => None
    case Some((id, r1)) =>
      match Field(NameKey, r1)
      case None => None
      case Some((name, r2)) =>
        match Field(EmailKey, r2)
        case None => None
        case Some((email, r3)) =>
          if r3 == "}" then
            FieldRest(IdKey, s);
            FieldRest(NameKey, r1);
            FieldRest(EmailKey, r2);
            SuffixLast(r3, r2);
            SuffixLast(r2, r1);
            SuffixLast(r1, s);
            Some(User(id, name, email))
          else None
  }

  /** What a string literal leaves unread is the tail of the input. */
  lemma {:induction false} ParseCharsRest(s: string)
    ensures ParseChars(s).Some? ==> IsSuffix(ParseChars(s).value.1, s)
    decreases |s|
  {
    if s != [] && s[0] != '"' && !(s[0] < ' ') {
      var k := if s[0] == '\\' && Unescape(s[1..]).Some? then 1 + Unescape(s[1..]).value.1 else 1;
      ParseCharsRest(s[k..]);
      if ParseChars(s).Some? {
        assert ParseChars(s[k..]).Some? && ParseChars(s).value.1 == ParseChars(s[k..]).value.1;
        assert IsSuffix(s[k..], s);
        SuffixTransitive(ParseChars(s).value.1, s[k..], s);
      }
    }
  }

  lemma FieldRest(key: string, s: string)
    ensures Field(key, s).Some? ==> IsSuffix(Field(key, s).value.1, s)
  {
    if Field(key, s).Some? {
      var t := s[|key| + 1..];
      ParseCharsRest(t);
      assert IsSuffix(t, s);
      SuffixTransitive(Field(key, s).value.1, t, s);
    }
  }

  /** A two-character escape: backslash, then the letter Unescape maps to c. */
  lemma ParseShortEscape(c: char, tail: string)
    requires |EscapeChar(c)| == 2
    ensures ParseChars(EscapeChar(c) + tail) == Cons(c, ParseChars(tail))
  {
    var s := EscapeChar(c) + tail;
    assert s[0] == '\\' && s[1..] == EscapeChar(c)[1..] + tail;
    assert Unescape(s[1..]) == Some((c, 1));
    assert s[2..] == tail;
  }

  /** A control character written as \u00 and two hexadecimal digits. */
  lemma ParseUnicodeEscape(c: char, tail: string)
    requires |EscapeChar(c)| == 6
    ensures ParseChars(EscapeChar(c) + tail) == Cons(c, ParseChars(tail))
  {
    var s := EscapeChar(c) + tail;
    var hi, lo := c as int / 16, c as int % 16;
    assert s[0] == '\\';
    assert s[1..] == ['u', '0', '0', HexDigit(hi), HexDigit(lo)] + tail;
    assert HexValue('0') == Some(0);
    assert Unescape(s[1..]) == Some((c, 5));
    assert s[6..] == tail;
  }

  /** Parsing an escaped character gives back that character. */
  lemma ParseEscapedChar(c: char, tail: string)
    ensures ParseChars(EscapeChar(c) + tail) == Cons(c, ParseChars(tail))
  {
    var e := EscapeChar(c);
    if |e| == 1 {
      var s := e + tail;
      assert s[0] == c && s[1..] == tail;
    } else if |e| == 6 {
      ParseUnicodeEscape(c, tail);
    } else {
      ParseShortEscape(c, tail);
    }
  }

  /** Escaping then reading back a string literal gives the original string. */
  lemma {:induction false} EscapeRoundTrip(x: string, rest: string)
    ensures ParseChars(Escape(x) + ['"'] + rest) == Some((x, rest))
  {
    if x == [] {
      assert Escape(x) + ['"'] + rest == ['"'] + rest;
    } else {
      var tail := Escape(x[1..]) + ['"'] + rest;
      assert Escape(x) + ['"'] + rest == EscapeChar(x[0]) + tail;
      ParseEscapedChar(x[0], tail);
      EscapeRoundTrip(x[1..], rest);
      assert [x[0]] + x[1..] == x;
    }
  }

  lemma FieldRoundTrip(key: string, x: string, rest: string)
    ensures Field(key, key + Quote(x) + rest) == Some((x, rest))
  {
    var s := key + Quote(x) + rest;
    assert s[..|key|] == key;
    assert s[|key|] == '"';
    assert s[|key| + 1..] == Escape(x) + ['"'] + rest;
    EscapeRoundTrip(x, rest);
  }

  /** JSON.parse(JSON.stringify(u)) is u again. */
  lemma DecodeEncode(u: User)
    ensures Decode(Encode(u)) == Some(u)
  {
    var r2 := EmailKey + Quote(u.email) + "}";
    var r1 := NameKey + Quote(u.name) + r2;
    FieldRoundTrip(IdKey, u.id, r1);
    FieldRoundTrip(NameKey, u.name, r2);
    FieldRoundTrip(EmailKey, u.email, "}");
  }
}
