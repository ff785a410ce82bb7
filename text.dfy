/**
 * The JavaScript string built-ins the engine relies on: `trim`,
 * `toLowerCase`, `includes`, `startsWith` and the decimal rendering of an
 * integer in a template string.
 */
module Text {

  /** The characters `String.prototype.trim` removes: the WhiteSpace and
      LineTerminator code points of ECMAScript (tab, line feed, vertical tab,
      form feed, carriage return, space, no-break space, the Zs space
      separators, line and paragraph separator, byte order mark). */
  const Whitespace: set<char> := {
    '\U{0009}', '\U{000A}', '\U{000B}', '\U{000C}', '\U{000D}', '\U{0020}', '\U{00A0}', '\U{1680}',
    '\U{2000}', '\U{2001}', '\U{2002}', '\U{2003}', '\U{2004}', '\U{2005}', '\U{2006}', '\U{2007}',
    '\U{2008}', '\U{2009}', '\U{200A}', '\U{2028}', '\U{2029}', '\U{202F}', '\U{205F}', '\U{3000}',
    '\U{FEFF}'
  }

  predicate IsWhitespace(c: char)
  {
    c in Whitespace
  }

  /** Number of whitespace characters at the start of `s`. */
  function LeadingSpaces(s: string): (n: nat)
    ensures n <= |s|
  {
    if s != [] && IsWhitespace(s[0]) then 1 + LeadingSpaces(s[1..]) else 0
  }

  /** The leading run is all whitespace and is followed by a non-whitespace character, if any. */
  lemma {:induction false} LeadingSpacesSpec(s: string)
    ensures forall k :: 0 <= k < LeadingSpaces(s) ==> IsWhitespace(s[k])
    ensures LeadingSpaces(s) < |s| ==> !IsWhitespace(s[LeadingSpaces(s)])
  {
    if s != [] && IsWhitespace(s[0]) {
      LeadingSpacesSpec(s[1..]);
    }
  }

  /** Number of whitespace characters at the end of `s`. */
  function TrailingSpaces(s: string): (n: nat)
    ensures n <= |s|
  {
    if s != [] && IsWhitespace(s[|s| - 1]) then 1 + TrailingSpaces(s[..|s| - 1]) else 0
  }

  /** The trailing run is all whitespace and is preceded by a non-whitespace character, if any. */
  lemma {:induction false} TrailingSpacesSpec(s: string)
    ensures forall k :: |s| - TrailingSpaces(s) <= k < |s| ==> IsWhitespace(s[k])
    ensures TrailingSpaces(s) < |s| ==> !IsWhitespace(s[|s| - 1 - TrailingSpaces(s)])
  {
    if s != [] && IsWhitespace(s[|s| - 1]) {
      TrailingSpacesSpec(s[..|s| - 1]);
    }
  }

  /** `s.trim()`: drops the leading and the trailing whitespace. */
  function Trim(s: string): string
  {
    var rest := s[LeadingSpaces(s)..];
    rest[..|rest| - TrailingSpaces(rest)]
  }

  /** The trimmed string is the infix of `s` that neither starts nor ends with
      whitespace; it is empty exactly when `s` is all whitespace. */
  lemma TrimSpec(s: string)
    ensures Trim(s) == [] <==> forall k :: 0 <= k < |s| ==> IsWhitespace(s[k])
    ensures Trim(s) != [] ==> !IsWhitespace(Trim(s)[0]) && !IsWhitespace(Trim(s)[|Trim(s)| - 1])
    ensures OccursAt(s, Trim(s), LeadingSpaces(s))
    ensures forall k :: 0 <= k < LeadingSpaces(s) ==> IsWhitespace(s[k])
    ensures forall k :: LeadingSpaces(s) + |Trim(s)| <= k < |s| ==> IsWhitespace(s[k])
  {
    var a := LeadingSpaces(s);
    var rest := s[a..];
    LeadingSpacesSpec(s);
    TrailingSpacesSpec(rest);
    forall k | a + |Trim(s)| <= k < |s|
      ensures IsWhitespace(s[k])
    {
      assert s[k] == rest[k - a];
    }
  }

  /** Trimming a trimmed string changes nothing. */
  lemma TrimIdempotent(s: string)
    ensures Trim(Trim(s)) == Trim(s)
  {
    var t := Trim(s);
    TrimSpec(s);
    if t != [] {
      assert LeadingSpaces(t) == 0;
      assert TrailingSpaces(t) == 0;
    }
  }

  /** `sub` is the infix of `s` that starts at index `i`. */
  predicate OccursAt(s: string, sub: string, i: int)
  {
    0 <= i <= |s| - |sub| && s[i..i + |sub|] == sub
  }

  /** `s.replace(pattern, replacement)` with a string pattern: only the first
      occurrence is replaced; without one the string is returned unchanged. */
  function ReplaceFirst(s: string, pattern: string, replacement: string): string
    decreases |s|
  {
    if StartsWith(s, pattern) then replacement + s[|pattern|..]
    else if s == [] then []
    else [s[0]] + ReplaceFirst(s[1..], pattern, replacement)
  }

  /** When the string starts with the pattern, that is its first occurrence. */
  lemma ReplaceAtStart(s: string, pattern: string)
    requires StartsWith(s, pattern)
    ensures ReplaceFirst(s, pattern, "") == s[|pattern|..]
  {
    assert "" + s[|pattern|..] == s[|pattern|..];
  }

  /** `s.startsWith(prefix)`. */
  predicate StartsWith(s: string, prefix: string)
  {
    |prefix| <= |s| && s[..|prefix|] == prefix
  }

  /** `s.includes(sub)`: `sub` occurs as a contiguous infix of `s`. */
  predicate Contains(s: string, sub: string)
  {
    exists i | 0 <= i <= |s| - |sub| :: OccursAt(s, sub, i)
  }

  /** Whatever is glued around `sub`, the result contains it. */
  lemma ContainsInfix(a: string, sub: string, b: string)
    ensures Contains(a + sub + b, sub)
  {
    var s := a + sub + b;
    assert OccursAt(s, sub, |a|);
  }

  /** `toLowerCase` on the ASCII letters; other characters are kept. */
  function ToLower(s: string): (r: string)
    ensures |r| == |s|
  {
    if s == [] then []
    else [if 'A' <= s[0] <= 'Z' then (s[0] as int + 32) as char else s[0]] + ToLower(s[1..])
  }

  /** Each character is lower-cased on its own. */
  lemma {:induction false} ToLowerSpec(s: string)
    ensures forall k :: 0 <= k < |s| ==>
      ToLower(s)[k] == if 'A' <= s[k] <= 'Z' then (s[k] as int + 32) as char else s[k]
  {
    if s != [] {
      ToLowerSpec(s[1..]);
    }
  }

  /** Lower-casing twice is lower-casing once. */
  lemma {:induction false} ToLowerIdempotent(s: string)
    ensures ToLower(ToLower(s)) == ToLower(s)
  {
    if s != [] {
      ToLowerIdempotent(s[1..]);
      assert ToLower(s)[1..] == ToLower(s[1..]);
    }
  }

  function DigitChar(d: nat): char
    requires d < 10
  {
    "0123456789"[d]
  }

  /** Decimal rendering of a natural number, as a template string prints it. */
  function NatToString(n: nat): (r: string)
    ensures r != []
    decreases n
  {
    if n < 10 then [DigitChar(n)] else NatToString(n / 10) + [DigitChar(n % 10)]
  }

  /** Decimal rendering of an integer, with a leading '-' when negative. */
  function IntToString(i: int): (r: string)
    ensures r != []
  {
    if i < 0 then "-" + NatToString(-i) else NatToString(i)
  }
}
