/** The part of JSON the daily-verse cache writes to and reads from
    localStorage: strings, written the way ECMAScript's `JSON.stringify`
    writes them, and arrays of strings; and a reader for exactly that form
    (`JSON.parse` restricted to it), with the round trips proved. */
module Json {
  import opened Wrappers
  import opened Text

  /** How `JSON.stringify` writes one character inside a string (the
      QuoteJSONString operation of ECMAScript): the quote and the backslash
      escaped, the five control characters that have a short escape written
      with it, other control characters as `\u00xx` with lower-case hex
      digits, everything else as itself. */
  function EscapeChar(c: char): string
  {
    if c == '"' then "\\\""
    else if c == '\\' then "\\\\"
    else if c == '\U{0008}' then "\\b"
    else if c == '\t' then "\\t"
    else if c == '\n' then "\\n"
    else if c == '\U{000C}' then "\\f"
    else if c == '\r' then "\\r"
    else if c < ' ' then "\\u00" + [HexDigit(c as int / 16), HexDigit(c as int % 16)]
    else [c]
  }

  /** Lower-case hexadecimal digit of `d`. */
  function HexDigit(d: int): char
    requires 0 <= d < 16
  {
    if d < 10 then ('0' as int + d) as char else ('a' as int + d - 10) as char
  }

  /** Value of a hexadecimal digit of either case. */
  function HexValue(c: char): Option<int>
  {
    if '0' <= c <= '9' then Some(c as int - '0' as int)
    else if 'a' <= c <= 'f' then Some(c as int - 'a' as int + 10)
    else if 'A' <= c <= 'F' then Some(c as int - 'A' as int + 10)
    else None
  }

  lemma HexDigitValue(d: int)
    requires 0 <= d < 16
    ensures HexValue(HexDigit(d)) == Some(d)
  {
  }

  /** The characters of `s`, each written as EscapeChar writes it. */
  function Escape(s: string): string
  {
    if s == [] then "" else EscapeChar(s[0]) + Escape(s[1..])
  }

  /** `JSON.stringify(s)` for a string. */
  function Quote(s: string): string
  {
    "\"" + Escape(s) + "\""
  }

  /** `JSON.stringify(xs)` for an array of strings: no spaces, commas between. */
  function EncodeList(xs: seq<string>): string
  {
    "[" + EncodeItems(xs) + "]"
  }

  function EncodeItems(xs: seq<string>): string
  {
    if xs == [] then ""
    else if |xs| == 1 then Quote(xs[0])
    else Quote(xs[0]) + "," + EncodeItems(xs[1..])
  }

  /** The character a one-letter escape stands for. */
  function ShortEscape(c: char): Option<char>
  {
    if c == '"' then Some('"')
    else if c == '\\' then Some('\\')
    else if c == '/' then Some('/')
    else if c == 'b' then Some('\U{0008}')
    else if c == 'f' then Some('\U{000C}')
    else if c == 'n' then Some('\n')
    else if c == 'r' then Some('\r')
    else if c == 't' then Some('\t')
    else None
  }

  /** The code point written by the four hex digits of a `\u` escape, when
      they are hex digits and do not name a surrogate. */
  function UnicodeEscape(h: string): Option<char>
    requires |h| == 4
  {
    match (HexValue(h[0]), HexValue(h[1]), HexValue(h[2]), HexValue(h[3]))
    case (Some(a), Some(b), Some(c), Some(d)) =>
      var code := 4096 * a + 256 * b + 16 * c + d;
      if 0xD800 <= code < 0xE000 then None else Some(code as char)
    case _ => None
  }

  /** Reads the rest of a string literal, whose opening quote has been read:
      its value and what follows the closing quote. */
  function ParseStringBody(s: string): (r: Option<(string, string)>)
    ensures r.Some? ==> |r.value.1| < |s|
    decreases |s|
  {
    if s == [] then None
    else if s[0] == '"' then Some(("", s[1..]))
    else if s[0] == '\\' then
      if |s| < 2 then None
      else if s[1] == 'u' then
        if |s| < 6 then None
        else match UnicodeEscape(s[2..6])
          case None => None
          case Some(c) => Prepend(c, ParseStringBody(s[6..]))
      else match ShortEscape(s[1])
        case None => None
        case Some(c) => Prepend(c, ParseStringBody(s[2..]))
    else if s[0] < ' ' then None
    else Prepend(s[0], ParseStringBody(s[1..]))
  }

  function Prepend(c: char, r: Option<(string, string)>): Option<(string, string)>
  {
    match r
    case None => None
    case Some((v, rest)) => Some(([c] + v, rest))
  }

  /** Reads a string literal at the start of `s`. */
  function ParseString(s: string): (r: Option<(string, string)>)
    ensures r.Some? ==> |r.value.1| < |s|
  {
    if s != [] && s[0] == '"' then ParseStringBody(s[1..]) else None
  }

  /** `JSON.parse(s)` for an array of strings without spaces. */
  function DecodeList(s: string): Option<seq<string>>
  {
    if |s| >= 2 && s[0] == '[' && s[1] == ']' then
      if |s| == 2 then Some([]) else None
    else if s != [] && s[0] == '[' then ParseItems(s[1..])
    else None
  }

  /** Reads the items of a non-empty array and its closing bracket, which
      must end the input. */
  function ParseItems(s: string): Option<seq<string>>
    decreases |s|
  {
    match ParseString(s)
    case None => None
    case Some((x, rest)) =>
      if rest == "]" then Some([x])
      else if rest != [] && rest[0] == ',' then
        match ParseItems(rest[1..])
        case None => None
        case Some(xs) => Some([x] + xs)
      else None
  }

  /** Reading back an escaped string stops at its closing quote and returns
      the string and what follows. */
  lemma {:induction false} ParseEscaped(s: string, rest: string)
    ensures ParseStringBody(Escape(s) + "\"" + rest) == Some((s, rest))
  {
    if s == [] {
      assert Escape(s) + "\"" + rest == "\"" + rest;
    } else {
      var tail := Escape(s[1..]) + "\"" + rest;
      ParseEscaped(s[1..], rest);
      assert Escape(s) + "\"" + rest == EscapeChar(s[0]) + tail;
      ParseEscapedChar(s[0], tail);
      assert s == [s[0]] + s[1..];
    }
  }

  /** Reading one escaped character gives it back and goes on after it. */
  lemma ParseEscapedChar(c: char, tail: string)
    ensures ParseStringBody(EscapeChar(c) + tail) == Prepend(c, ParseStringBody(tail))
  {
    if c == '"' || c == '\\' || c == '\U{0008}' || c == '\t' || c == '\n' || c == '\U{000C}' || c == '\r' {
      ParseShortEscape(c, tail);
    } else if c < ' ' {
      ParseUnicodeEscape(c, tail);
    } else {
      var w := EscapeChar(c) + tail;
      assert w[0] == c && w[1..] == tail;
    }
  }

  /** A character written with a one-letter escape. */
  lemma ParseShortEscape(c: char, tail: string)
    requires c == '"' || c == '\\' || c == '\U{0008}' || c == '\t' || c == '\n' || c == '\U{000C}' || c == '\r'
    ensures ParseStringBody(EscapeChar(c) + tail) == Prepend(c, ParseStringBody(tail))
  {
    var w := EscapeChar(c) + tail;
    assert w[0] == '\\' && w[1] != 'u' && ShortEscape(w[1]) == Some(c) && w[2..] == tail;
  }

  /** A control character written as a `\u00xx` escape. */
  lemma ParseUnicodeEscape(c: char, tail: string)
    requires c < ' ' && c != '\U{0008}' && c != '\t' && c != '\n' && c != '\U{000C}' && c != '\r'
    ensures ParseStringBody(EscapeChar(c) + tail) == Prepend(c, ParseStringBody(tail))
  {
    var w := EscapeChar(c) + tail;
    var hi, lo := c as int / 16, c as int % 16;
    assert EscapeChar(c) == "\\u00" + [HexDigit(hi), HexDigit(lo)];
    assert w[0] == '\\' && w[1] == 'u' && w[6..] == tail;
    HexDigitValue(hi);
    HexDigitValue(lo);
    assert w[2..6] == ['0', '0', HexDigit(hi), HexDigit(lo)];
    assert 4096 * 0 + 256 * 0 + 16 * hi + lo == c as int;
    assert UnicodeEscape(w[2..6]) == Some(c);
  }

  /** `JSON.parse(JSON.stringify(s))` is `s`, and what follows is left alone. */
  lemma QuoteRoundTrip(s: string, rest: string)
    ensures ParseString(Quote(s) + rest) == Some((s, rest))
  {
    ParseEscaped(s, rest);
    assert (Quote(s) + rest)[1..] == Escape(s) + "\"" + rest;
  }

  /** Reading back the items of a non-empty list and the closing bracket. */
  lemma {:induction false} ItemsRoundTrip(xs: seq<string>)
    requires xs != []
    ensures ParseItems(EncodeItems(xs) + "]") == Some(xs)
  {
    if |xs| == 1 {
      QuoteRoundTrip(xs[0], "]");
      assert [xs[0]] == xs;
    } else {
      var rest := EncodeItems(xs[1..]) + "]";
      QuoteRoundTrip(xs[0], "," + rest);
      assert EncodeItems(xs) + "]" == Quote(xs[0]) + ("," + rest);
      ItemsRoundTrip(xs[1..]);
      assert ("," + rest)[1..] == rest;
      assert [xs[0]] + xs[1..] == xs;
    }
  }

  /** `JSON.parse(JSON.stringify(xs))` is `xs` for an array of strings. */
  lemma ListRoundTrip(xs: seq<string>)
    ensures DecodeList(EncodeList(xs)) == Some(xs)
  {
    if xs == [] {
      assert EncodeList(xs) == "[]";
    } else {
      ItemsRoundTrip(xs);
      var e := EncodeList(xs);
      assert e[1..] == EncodeItems(xs) + "]";
      assert e[1] == '"';
    }
  }

  /** Strips `lit` from the start of `s`. */
  function Expect(lit: string, s: string): (r: Option<string>)
    ensures r.Some? ==> s == lit + r.value
    ensures r.None? ==> !(|lit| <= |s| && s[..|lit|] == lit)
  {
    if |lit| <= |s| && s[..|lit|] == lit then Some(s[|lit|..]) else None
  }

  lemma ExpectPrefix(lit: string, rest: string)
    ensures Expect(lit, lit + rest) == Some(rest)
  {
    assert (lit + rest)[..|lit|] == lit;
  }

  /** Reads `lit`, then a string literal, and returns the string and what
      follows it. */
  function Field(lit: string, s: string): Option<(string, string)>
  {
    match Expect(lit, s)
    case None => None
    case Some(t) => ParseString(t)
  }

  lemma FieldRoundTrip(lit: string, x: string, rest: string)
    ensures Field(lit, lit + Quote(x) + rest) == Some((x, rest))
  {
    assert lit + Quote(x) + rest == lit + (Quote(x) + rest);
    ExpectPrefix(lit, Quote(x) + rest);
    QuoteRoundTrip(x, rest);
  }
}
