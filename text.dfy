/**
 * The JavaScript string operations the panels and forms rely on:
 * `toLowerCase`, `includes`, `trim`, `.length` and the `x || default` idiom.
 */
module Text {
  import opened Wrappers

  predicate IsAsciiUpper(c: char) { 'A' <= c <= 'Z' }

  /** Case mapping of one character; only the ASCII letters are mapped. */
  function LowerChar(c: char): char
  {
    if IsAsciiUpper(c) then (c as int - 'A' as int + 'a' as int) as char else c
  }

  /**
   * `s.toLowerCase()` restricted to ASCII: each capital becomes its small
   * letter (32 code points higher), nothing else moves.
   */
  function ToLower(s: string): (r: string)
    ensures |r| == |s|
    ensures forall i :: 0 <= i < |r| ==> !IsAsciiUpper(r[i])
    ensures forall i :: 0 <= i < |s| && IsAsciiUpper(s[i]) ==> r[i] as int == s[i] as int + 32
    ensures forall i :: 0 <= i < |s| && !IsAsciiUpper(s[i]) ==> r[i] == s[i]
  {
    seq(|s|, i requires 0 <= i < |s| => LowerChar(s[i]))
  }

  /** c and d are the same character up to ASCII case. */
  predicate SameIgnoringCase(c: char, d: char)
  {
    || c == d
    || (IsAsciiUpper(c) && d as int == c as int + 32)
    || (IsAsciiUpper(d) && c as int == d as int + 32)
  }

  /** a and b differ at most in the ASCII case of their letters. */
  predicate EqualIgnoringCase(a: string, b: string)
  {
    |a| == |b| && forall i :: 0 <= i < |a| ==> SameIgnoringCase(a[i], b[i])
  }

  /** Strings equal up to ASCII case lower-case to the same string. */
  lemma ToLowerIgnoresCase(a: string, b: string)
    requires EqualIgnoringCase(a, b)
    ensures ToLower(a) == ToLower(b)
  {
    forall i | 0 <= i < |a|
      ensures ToLower(a)[i] == ToLower(b)[i]
    {
      assert SameIgnoringCase(a[i], b[i]);
    }
  }

  /** `needle` occurs in `hay` at position i. */
  predicate OccursAt(hay: string, needle: string, i: int)
  {
    0 <= i && i + |needle| <= |hay| && hay[i..i + |needle|] == needle
  }

  /** `hay.includes(needle)`: tries every start position from the left. */
  function Includes(hay: string, needle: string): bool
    decreases |hay|
  {
    if |needle| > |hay| then false
    else if hay[..|needle|] == needle then true
    else Includes(hay[1..], needle)
  }

  /** The left-to-right scan finds a match exactly when the needle occurs somewhere. */
  lemma {:induction false} IncludesIffOccurs(hay: string, needle: string)
    ensures Includes(hay, needle) <==> exists i :: OccursAt(hay, needle, i)
    decreases |hay|
  {
    if |needle| > |hay| {
    } else if hay[..|needle|] == needle {
      assert OccursAt(hay, needle, 0);
    } else {
      IncludesIffOccurs(hay[1..], needle);
      if i :| OccursAt(hay[1..], needle, i) {
        assert hay[1..][i..i + |needle|] == hay[i + 1..i + 1 + |needle|];
        assert OccursAt(hay, needle, i + 1);
      }
      if i :| OccursAt(hay, needle, i) {
        assert i != 0;
        assert hay[1..][i - 1..i - 1 + |needle|] == hay[i..i + |needle|];
        assert OccursAt(hay[1..], needle, i - 1);
      }
    }
  }

  /** The search rule of every panel: lower-cased field includes the lower-cased term. */
  predicate MatchesTerm(field: string, term: string)
  {
    Includes(ToLower(field), ToLower(term))
  }

  /**
   * The search ignores case: changing the ASCII case of letters in the field
   * or in the term never changes whether they match.
   */
  lemma MatchesTermIgnoresCase(field: string, field': string, term: string, term': string)
    requires EqualIgnoringCase(field, field') && EqualIgnoringCase(term, term')
    ensures MatchesTerm(field, term) <==> MatchesTerm(field', term')
  {
    ToLowerIgnoresCase(field, field');
    ToLowerIgnoresCase(term, term');
  }

  /** The empty search term matches every field. */
  lemma EmptyTermMatches(field: string)
    ensures MatchesTerm(field, "")
  {
    assert ToLower("") == "";
    assert ToLower(field)[..0] == "";
  }

  /** The characters `String.prototype.trim` strips: WhiteSpace and LineTerminator of ECMA-262. */
  predicate IsJsWhitespace(c: char)
  {
    || c == '\t' || c == '\n' || c == '\U{B}' || c == '\U{C}' || c == '\r' || c == ' '
    || c == '\U{A0}' || c == '\U{1680}' || ('\U{2000}' <= c <= '\U{200A}')
    || c == '\U{2028}' || c == '\U{2029}' || c == '\U{202F}' || c == '\U{205F}'
    || c == '\U{3000}' || c == '\U{FEFF}'
  }

  /** Every character of s is whitespace (this includes the empty string). */
  predicate IsBlank(s: string)
  {
    forall i :: 0 <= i < |s| ==> IsJsWhitespace(s[i])
  }

  function TrimStart(s: string): string
  {
    if s != [] && IsJsWhitespace(s[0]) then TrimStart(s[1..]) else s
  }

  function TrimEnd(s: string): string
  {
    if s != [] && IsJsWhitespace(s[|s| - 1]) then TrimEnd(s[..|s| - 1]) else s
  }

  /** `s.trim()`: leading and trailing whitespace removed. */
  function Trim(s: string): string
  {
    TrimEnd(TrimStart(s))
  }

  lemma {:induction false} TrimStartEmptyIffBlank(s: string)
    ensures TrimStart(s) == [] <==> IsBlank(s)
    ensures TrimStart(s) != [] ==> !IsJsWhitespace(TrimStart(s)[0])
  {
    if s != [] && IsJsWhitespace(s[0]) {
      TrimStartEmptyIffBlank(s[1..]);
      assert forall i :: 0 < i < |s| ==> s[i] == s[1..][i - 1];
    }
  }

  lemma {:induction false} TrimEndKeepsNonBlank(s: string)
    requires !IsBlank(s)
    ensures TrimEnd(s) != []
  {
    if s != [] && IsJsWhitespace(s[|s| - 1]) {
      var k :| 0 <= k < |s| && !IsJsWhitespace(s[k]);
      assert s[..|s| - 1][k] == s[k];
      TrimEndKeepsNonBlank(s[..|s| - 1]);
    }
  }

  /** `s.trim() === ''` holds exactly for the all-whitespace strings. */
  lemma TrimEmptyIffBlank(s: string)
    ensures Trim(s) == [] <==> IsBlank(s)
  {
    TrimStartEmptyIffBlank(s);
    if !IsBlank(s) {
      TrimEndKeepsNonBlank(TrimStart(s));
    }
  }

  /** `.length` of a JavaScript string: UTF-16 code units, two for a character outside the BMP. */
  function Utf16Length(s: string): (n: nat)
    ensures |s| <= n <= 2 * |s|
  {
    if s == [] then 0 else (if s[0] as int >= 0x1_0000 then 2 else 1) + Utf16Length(s[1..])
  }

  /** `x || d` on a nullable string column: null and '' are falsy and give d. */
  function OrElse(x: Option<string>, d: string): string
  {
    if x.Some? && x.value != "" then x.value else d
  }
}
