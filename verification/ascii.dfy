/** ASCII views of Python's `str.lower`, `str.upper`, `str.capitalize` and
    the `in` substring test on strings. */
module Ascii {

  predicate IsUpper(c: char) { 'A' <= c <= 'Z' }

  predicate IsLower(c: char) { 'a' <= c <= 'z' }

  predicate IsDigit(c: char) { '0' <= c <= '9' }

  predicate IsAlnum(c: char) { IsUpper(c) || IsLower(c) || IsDigit(c) }

  /** `c.lower()` for one character: ASCII capitals are folded, every other
      character is left alone. */
  function LowerChar(c: char): (r: char)
    ensures !IsUpper(r)
    ensures IsUpper(c) ==> IsLower(r) && r as int == c as int + 32
    ensures !IsUpper(c) ==> r == c
  {
    if IsUpper(c) then (c as int + 32) as char else c
  }

  /** `c.upper()` for one character, the mirror image of `LowerChar`. */
  function UpperChar(c: char): (r: char)
    ensures !IsLower(r)
    ensures IsLower(c) ==> IsUpper(r) && LowerChar(r) == c
    ensures !IsLower(c) ==> r == c
  {
    if IsLower(c) then (c as int - 32) as char else c
  }

  /** `s.lower()` */
  function Lower(s: string): (r: string)
    ensures |r| == |s|
    ensures forall i :: 0 <= i < |s| ==> r[i] == LowerChar(s[i])
  {
    seq(|s|, i requires 0 <= i < |s| => LowerChar(s[i]))
  }

  /** A string that `lower()` leaves unchanged. */
  predicate IsLowerCase(s: string) {
    forall i :: 0 <= i < |s| ==> !IsUpper(s[i])
  }

  lemma LowerIsLowerCase(s: string)
    ensures IsLowerCase(Lower(s))
  {
  }

  lemma LowerCaseIsFixed(s: string)
    requires IsLowerCase(s)
    ensures Lower(s) == s
  {
  }

  /** Lowering twice is lowering once. */
  lemma LowerIdempotent(s: string)
    ensures Lower(Lower(s)) == Lower(s)
  {
    LowerIsLowerCase(s);
    LowerCaseIsFixed(Lower(s));
  }

  /** `s.capitalize()`: the first character upper-cased, the rest lowered. */
  function Capitalize(s: string): (r: string)
    ensures |r| == |s|
    ensures |s| > 0 ==> r[0] == UpperChar(s[0]) && r[1..] == Lower(s[1..])
  {
    if |s| == 0 then "" else [UpperChar(s[0])] + Lower(s[1..])
  }

  /** `needle` occurs in `hay` starting at index `i`. */
  ghost predicate OccursAt(needle: string, hay: string, i: int) {
    0 <= i && i + |needle| <= |hay| && hay[i..i + |needle|] == needle
  }

  /** The meaning of Python's `needle in hay` for strings. */
  ghost predicate IsSubstring(needle: string, hay: string) {
    exists i :: OccursAt(needle, hay, i)
  }

  /** Executable `needle in hay`: try every start position from the left. */
  predicate Contains(hay: string, needle: string)
    decreases |hay|
  {
    (|needle| <= |hay| && hay[..|needle|] == needle)
    || (|needle| < |hay| && Contains(hay[1..], needle))
  }

  /** `Contains` decides exactly the substring relation. */
  lemma {:induction false} ContainsIsSubstring(hay: string, needle: string)
    ensures Contains(hay, needle) <==> IsSubstring(needle, hay)
    decreases |hay|
  {
    if |needle| <= |hay| && hay[..|needle|] == needle {
      assert OccursAt(needle, hay, 0);
    } else if |needle| < |hay| {
      ContainsIsSubstring(hay[1..], needle);
      if Contains(hay[1..], needle) {
        var i :| OccursAt(needle, hay[1..], i);
        assert hay[1..][i..i + |needle|] == hay[i + 1..i + 1 + |needle|];
        assert OccursAt(needle, hay, i + 1);
      }
      if IsSubstring(needle, hay) {
        var i :| OccursAt(needle, hay, i);
        if i > 0 {
          assert hay[1..][i - 1..i - 1 + |needle|] == hay[i..i + |needle|];
          assert OccursAt(needle, hay[1..], i - 1);
        }
      }
    }
  }

  /** A needle whose first character is absent from the haystack does not
      occur in it. */
  lemma {:induction false} NotContainsFirstChar(hay: string, needle: string)
    requires |needle| > 0
    requires forall i :: 0 <= i < |hay| ==> hay[i] != needle[0]
    ensures !Contains(hay, needle)
    decreases |hay|
  {
    if |needle| <= |hay| {
      assert hay[..|needle|][0] != needle[0];
    }
    if |needle| < |hay| {
      NotContainsFirstChar(hay[1..], needle);
    }
  }

  /** Capitalizing changes only the case of letters. */
  lemma CapitalizeKeepsLetters(s: string)
    ensures Lower(Capitalize(s)) == Lower(s)
  {
    if |s| > 0 {
      var r := Capitalize(s);
      forall i | 0 <= i < |s|
        ensures LowerChar(r[i]) == LowerChar(s[i])
      {
        if i > 0 {
          assert r[i] == r[1..][i - 1] == LowerChar(s[i]);
        }
      }
    }
  }
}
