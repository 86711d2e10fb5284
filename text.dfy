/** The JavaScript string operations the application relies on: `trim`,
    `toLowerCase`, `includes` and `Array.prototype.join`. */
module Text {

  /** The characters ECMAScript's `String.prototype.trim` removes: the
      WhiteSpace code points (tab, vertical tab, form feed, space, no-break
      space, the byte-order mark and the space separators of Unicode category
      Zs) and the LineTerminator code points. */
  const WhitespaceChars: seq<char> := [
    '\t', '\n', '\U{000B}', '\U{000C}', '\r', ' ', '\U{00A0}', '\U{1680}',
    '\U{2000}', '\U{2001}', '\U{2002}', '\U{2003}', '\U{2004}', '\U{2005}',
    '\U{2006}', '\U{2007}', '\U{2008}', '\U{2009}', '\U{200A}',
    '\U{2028}', '\U{2029}', '\U{202F}', '\U{205F}', '\U{3000}', '\U{FEFF}'
  ]

  /** `c` is one of the characters `trim` removes: tab to carriage return
      (U+0009-U+000D), the space, the no-break space, the Ogham space mark,
      the spaces U+2000-U+200A, the line and paragraph separators, the narrow
      no-break space, the medium mathematical space, the ideographic space and
      the byte-order mark. */
  predicate IsWhitespace(c: char)
  {
    || ('\t' <= c <= '\r') || c == ' ' || c == '\U{00A0}' || c == '\U{1680}'
    || ('\U{2000}' <= c <= '\U{200A}') || c == '\U{2028}' || c == '\U{2029}'
    || c == '\U{202F}' || c == '\U{205F}' || c == '\U{3000}' || c == '\U{FEFF}'
  }

  /** The ranges above are exactly the listed characters. */
  lemma WhitespaceIsListed(c: char)
    ensures IsWhitespace(c) <==> c in WhitespaceChars
  {
  }

  /** No printable ASCII character is whitespace. */
  lemma PrintableIsNotWhitespace(c: char)
    requires '!' <= c <= '~'
    ensures !IsWhitespace(c)
  {
  }

  /** `s.trimStart()`: `s` without its leading whitespace. */
  function TrimStart(s: string): (r: string)
    ensures |r| <= |s| && r == s[|s| - |r|..]
    ensures forall k :: 0 <= k < |s| - |r| ==> IsWhitespace(s[k])
    ensures r == [] || !IsWhitespace(r[0])
  {
    if s != [] && IsWhitespace(s[0]) then TrimStart(s[1..]) else s
  }

  /** `s.trimEnd()`: `s` without its trailing whitespace. */
  function TrimEnd(s: string): (r: string)
    ensures |r| <= |s| && r == s[..|r|]
    ensures forall k :: |r| <= k < |s| ==> IsWhitespace(s[k])
    ensures r == [] || !IsWhitespace(r[|r| - 1])
  {
    if s != [] && IsWhitespace(s[|s| - 1]) then TrimEnd(s[..|s| - 1]) else s
  }

  /** `s.trim()`. */
  function Trim(s: string): string
  {
    TrimEnd(TrimStart(s))
  }

  /** A string that neither starts nor ends with whitespace is its own trim. */
  lemma TrimUnpadded(s: string)
    requires s != [] && !IsWhitespace(s[0]) && !IsWhitespace(s[|s| - 1])
    ensures Trim(s) == s
  {
  }

  /** `!s.trim()`: the string is empty or made only of whitespace. */
  predicate IsBlank(s: string)
  {
    Trim(s) == ""
  }

  /** What trim keeps is a contiguous piece of `s` that neither starts nor ends
      with whitespace, and everything around it is whitespace. */
  lemma TrimIsInfix(s: string) returns (i: nat, j: nat)
    ensures i <= j <= |s| && Trim(s) == s[i..j]
    ensures forall k :: 0 <= k < i ==> IsWhitespace(s[k])
    ensures forall k :: j <= k < |s| ==> IsWhitespace(s[k])
    ensures Trim(s) == [] || (!IsWhitespace(Trim(s)[0]) && !IsWhitespace(Trim(s)[|Trim(s)| - 1]))
  {
    var t := TrimStart(s);
    var u := TrimEnd(t);
    assert Trim(s) == u;
    i, j := TrimmedIsInfix(s, t, u);
  }

  /** The facts `trimStart` and `trimEnd` promise, put together: `u` is the
      infix of `s` between indices `i` and `j`, with only whitespace around it. */
  lemma TrimmedIsInfix(s: string, t: string, u: string) returns (i: nat, j: nat)
    requires |t| <= |s| && t == s[|s| - |t|..]
    requires forall k :: 0 <= k < |s| - |t| ==> IsWhitespace(s[k])
    requires t == [] || !IsWhitespace(t[0])
    requires |u| <= |t| && u == t[..|u|]
    requires forall k :: |u| <= k < |t| ==> IsWhitespace(t[k])
    requires u == [] || !IsWhitespace(u[|u| - 1])
    ensures i <= j <= |s| && u == s[i..j]
    ensures forall k :: 0 <= k < i ==> IsWhitespace(s[k])
    ensures forall k :: j <= k < |s| ==> IsWhitespace(s[k])
    ensures u == [] || (!IsWhitespace(u[0]) && !IsWhitespace(u[|u| - 1]))
  {
    i := |s| - |t|;
    j := i + |u|;
    PrefixOfSuffix(s, t, u);
    TrailIsWhitespace(s, t, u);
    UnpaddedPrefix(t, u);
  }

  /** A prefix `u` of a suffix `t` of `s` is an infix of `s`, and what
      follows it in `s` is what follows it in `t`. */
  lemma PrefixOfSuffix(s: string, t: string, u: string)
    requires |t| <= |s| && t == s[|s| - |t|..]
    requires |u| <= |t| && u == t[..|u|]
    ensures u == s[|s| - |t|..|s| - |t| + |u|]
    ensures forall k :: |s| - |t| + |u| <= k < |s| ==> s[k] == t[k - (|s| - |t|)]
  {
  }

  /** Whitespace that follows `u` in `t` is whitespace in `s` too. */
  lemma TrailIsWhitespace(s: string, t: string, u: string)
    requires |u| <= |t| <= |s|
    requires forall k :: |u| <= k < |t| ==> IsWhitespace(t[k])
    requires forall k :: |s| - |t| + |u| <= k < |s| ==> s[k] == t[k - (|s| - |t|)]
    ensures forall k :: |s| - |t| + |u| <= k < |s| ==> IsWhitespace(s[k])
  {
    forall k | |s| - |t| + |u| <= k < |s|
      ensures IsWhitespace(s[k])
    {
      assert IsWhitespace(t[k - (|s| - |t|)]);
    }
  }

  /** A non-empty prefix of a string that does not start with whitespace does
      not start with whitespace either. */
  lemma UnpaddedPrefix(t: string, u: string)
    requires |u| <= |t| && u == t[..|u|]
    requires t == [] || !IsWhitespace(t[0])
    requires u == [] || !IsWhitespace(u[|u| - 1])
    ensures u == [] || (!IsWhitespace(u[0]) && !IsWhitespace(u[|u| - 1]))
  {
    if u != [] {
      assert u[0] == t[0];
    }
  }

  /** A string is blank exactly when every one of its characters is whitespace. */
  lemma BlankIffAllWhitespace(s: string)
    ensures IsBlank(s) <==> forall k :: 0 <= k < |s| ==> IsWhitespace(s[k])
  {
    var i, j := TrimIsInfix(s);
    assert Trim(s) != [] ==> Trim(s)[0] == s[i];
  }

  /** Trimming twice is trimming once. */
  lemma TrimIdempotent(s: string)
    ensures Trim(Trim(s)) == Trim(s)
  {
    var t := Trim(s);
    var _, _ := TrimIsInfix(s);
    assert TrimStart(t) == t;
    assert TrimEnd(t) == t;
  }

  /** `s.length`: the number of UTF-16 code units, two for each character
      outside the Basic Multilingual Plane. */
  function Utf16Length(s: string): (n: nat)
    ensures |s| <= n <= 2 * |s|
    ensures (forall k :: 0 <= k < |s| ==> s[k] as int < 0x1_0000) ==> n == |s|
  {
    if s == [] then 0
    else (if s[0] as int < 0x1_0000 then 1 else 2) + Utf16Length(s[1..])
  }

  /** The length of a concatenation is the sum of the lengths. */
  lemma {:induction false} Utf16LengthConcat(a: string, b: string)
    ensures Utf16Length(a + b) == Utf16Length(a) + Utf16Length(b)
    decreases |a|
  {
    if a == [] {
      assert a + b == b;
    } else {
      assert (a + b)[1..] == a[1..] + b;
      Utf16LengthConcat(a[1..], b);
    }
  }

  /** Trimming never makes a string longer in UTF-16 units. */
  lemma TrimmedUtf16Shorter(s: string)
    ensures Utf16Length(Trim(s)) <= Utf16Length(s)
  {
    var i, j := TrimIsInfix(s);
    assert s == s[..i] + s[i..j] + s[j..];
    Utf16LengthConcat(s[..i] + s[i..j], s[j..]);
    Utf16LengthConcat(s[..i], s[i..j]);
  }

  /** `c.toLowerCase()` for the Basic Latin letters. */
  function LowerChar(c: char): char
  {
    if 'A' <= c <= 'Z' then (c as int + 32) as char else c
  }

  /** `s.toLowerCase()`, character by character. */
  function ToLower(s: string): (r: string)
    ensures |r| == |s|
    ensures forall k :: 0 <= k < |s| ==> r[k] == LowerChar(s[k])
  {
    if s == [] then [] else [LowerChar(s[0])] + ToLower(s[1..])
  }

  /** Lower-casing leaves no upper-case Basic Latin letter behind. */
  lemma ToLowerHasNoCapitals(s: string)
    ensures forall k :: 0 <= k < |s| ==> !('A' <= ToLower(s)[k] <= 'Z')
  {
  }

  /** Lower-casing twice is lower-casing once. */
  lemma ToLowerIdempotent(s: string)
    ensures ToLower(ToLower(s)) == ToLower(s)
  {
  }

  /** `text.includes(sub)`: `sub` occurs in `text` at some position. */
  predicate Contains(text: string, sub: string)
  {
    exists i | 0 <= i <= |text| :: OccursAt(text, sub, i)
  }

  /** `sub` occurs in `text` starting at index `i`. */
  predicate OccursAt(text: string, sub: string, i: int)
  {
    0 <= i && i + |sub| <= |text| && text[i..i + |sub|] == sub
  }

  /** Whatever occurs in `text` also occurs in any string around it. */
  lemma ContainsInLonger(pre: string, text: string, post: string, sub: string)
    requires Contains(text, sub)
    ensures Contains(pre + text + post, sub)
  {
    var i :| 0 <= i <= |text| && OccursAt(text, sub, i);
    var whole := pre + text + post;
    assert whole[|pre| + i..|pre| + i + |sub|] == text[i..i + |sub|];
    assert OccursAt(whole, sub, |pre| + i);
  }

  /** `parts.join(sep)`. */
  function Join(parts: seq<string>, sep: string): string
  {
    if parts == [] then ""
    else if |parts| == 1 then parts[0]
    else parts[0] + sep + Join(parts[1..], sep)
  }

  /** Joining one more part appends the separator and that part. */
  lemma {:induction false} JoinSnoc(parts: seq<string>, x: string, sep: string)
    ensures Join(parts + [x], sep) == if parts == [] then x else Join(parts, sep) + sep + x
  {
    if parts != [] {
      assert (parts + [x])[1..] == parts[1..] + [x];
      JoinSnoc(parts[1..], x, sep);
    }
  }

  /** Every part is a piece of the joined string. */
  lemma {:induction false} JoinContainsParts(parts: seq<string>, sep: string, k: nat)
    requires k < |parts|
    ensures Contains(Join(parts, sep), parts[k])
  {
    if k == 0 {
      assert OccursAt(Join(parts, sep), parts[0], 0);
    } else {
      JoinContainsParts(parts[1..], sep, k - 1);
      ContainsInLonger(parts[0] + sep, Join(parts[1..], sep), "", parts[k]);
      assert parts[0] + sep + Join(parts[1..], sep) + "" == Join(parts, sep);
    }
  }
}
