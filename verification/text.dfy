/**
 Character and string helpers shared by the message classifier and the
 milestone catalog: ASCII lower-casing, substring search, and the set of
 characters the JavaScript regular-expression class `\s` accepts.
 */
module Text {

  predicate IsUpper(c: char) {
    'A' <= c <= 'Z'
  }

  /** ASCII lower-casing of one character; every other character is kept. */
  function LowerChar(c: char): char {
    if IsUpper(c) then (c as int + 32) as char else c
  }

  /** ASCII lower-casing of a whole string, character by character. */
  function Lower(s: string): (r: string)
    ensures |r| == |s|
    ensures forall i :: 0 <= i < |s| ==> r[i] == LowerChar(s[i])
    ensures forall i :: 0 <= i < |r| ==> !IsUpper(r[i])
  {
    seq(|s|, i requires 0 <= i < |s| => LowerChar(s[i]))
  }

  /** True when no character of `s` is an ASCII capital. */
  predicate IsLowerCase(s: string) {
    forall i :: 0 <= i < |s| ==> !IsUpper(s[i])
  }

  /** Lower-casing changes nothing in a string that has no capitals,
      so applying it twice is the same as applying it once. */
  lemma LowerOfLowerCase(s: string)
    requires IsLowerCase(s)
    ensures Lower(s) == s
  {
  }

  /** `needle` occurs in `hay` starting at index `i`. */
  predicate OccursAt(hay: string, needle: string, i: int) {
    0 <= i && i + |needle| <= |hay| && hay[i..i + |needle|] == needle
  }

  /** `hay.includes(needle)`: the needle occurs somewhere in the hay. */
  predicate Contains(hay: string, needle: string) {
    exists i :: 0 <= i <= |hay| && OccursAt(hay, needle, i)
  }

  /** `String.prototype.includes` as a left-to-right scan: it answers true
      exactly for the strings that occur in `hay`. */
  method Includes(hay: string, needle: string) returns (found: bool)
    ensures found <==> Contains(hay, needle)
  {
    if |needle| > |hay| {
      return false;
    }
    var i := 0;
    while i + |needle| <= |hay|
      invariant 0 <= i <= |hay| - |needle| + 1
      invariant forall k :: 0 <= k < i ==> !OccursAt(hay, needle, k)
    {
      if hay[i..i + |needle|] == needle {
        assert OccursAt(hay, needle, i);
        return true;
      }
      i := i + 1;
    }
    return false;
  }

  /** Every occurrence at an index is found by the search. */
  lemma ContainsAt(hay: string, needle: string, i: int)
    requires OccursAt(hay, needle, i)
    ensures Contains(hay, needle)
  {
  }

  /** Every string contains itself. */
  lemma ContainsSelf(s: string)
    ensures Contains(s, s)
  {
    assert OccursAt(s, s, 0);
  }

  /** Containment is transitive: a string inside a substring of `hay` is inside `hay`. */
  lemma ContainsTrans(hay: string, mid: string, needle: string)
    requires Contains(hay, mid) && Contains(mid, needle)
    ensures Contains(hay, needle)
  {
    var i :| 0 <= i <= |hay| && OccursAt(hay, mid, i);
    var j :| 0 <= j <= |mid| && OccursAt(mid, needle, j);
    forall k | 0 <= k < |needle|
      ensures hay[i + j + k] == needle[k]
    {
      assert mid[j..j + |needle|][k] == needle[k];
      assert hay[i..i + |mid|][j + k] == mid[j + k];
    }
    assert hay[i + j..i + j + |needle|] == needle;
    ContainsAt(hay, needle, i + j);
  }

  /** A needle holding a character that `hay` lacks does not occur in it. */
  lemma NotContainsByChar(hay: string, needle: string, j: int)
    requires 0 <= j < |needle|
    requires forall k :: 0 <= k < |hay| ==> hay[k] != needle[j]
    ensures !Contains(hay, needle)
  {
    forall i | 0 <= i && i + |needle| <= |hay|
      ensures !OccursAt(hay, needle, i)
    {
      assert hay[i..i + |needle|][j] == hay[i + j];
    }
  }

  /** A needle holding a pair of adjacent characters that never appear
      side by side in `hay` does not occur in it. */
  lemma NotContainsByPair(hay: string, needle: string, j: int)
    requires 0 <= j && j + 1 < |needle|
    requires forall k :: 0 <= k && k + 1 < |hay| ==> !(hay[k] == needle[j] && hay[k + 1] == needle[j + 1])
    ensures !Contains(hay, needle)
  {
    forall i | 0 <= i && i + |needle| <= |hay|
      ensures !OccursAt(hay, needle, i)
    {
      assert hay[i..i + |needle|][j] == hay[i + j];
      assert hay[i..i + |needle|][j + 1] == hay[i + j + 1];
    }
  }

  /** The characters matched by `\s` in a JavaScript regular expression:
      the ECMAScript WhiteSpace and LineTerminator code points. */
  predicate IsJsSpace(c: char) {
    || c == '\t' || c == '\n' || c == '\U{000B}' || c == '\U{000C}' || c == '\r'
    || c == ' ' || c == '\U{00A0}' || c == '\U{1680}'
    || ('\U{2000}' <= c <= '\U{200A}')
    || c == '\U{2028}' || c == '\U{2029}' || c == '\U{202F}' || c == '\U{205F}'
    || c == '\U{3000}' || c == '\U{FEFF}'
  }

  /** Every character of `s` is `\s` whitespace. */
  predicate AllSpace(s: string) {
    forall i :: 0 <= i < |s| ==> IsJsSpace(s[i])
  }
}
