/**
 A tiny regular-expression fragment, enough for the alternatives the status
 classifier tests: a sequence of literal words and `\s+` runs.  A pattern is
 tested against an already lower-cased message, which is how the tracker's
 case-insensitive (`/i`, no `u` flag) expressions behave on their all-ASCII
 phrases.
 */
module Patterns {
  import opened Text

  /** One piece of an alternative: a literal word, or `\s+` (one or more
      whitespace characters). */
  datatype Token = Lit(text: string) | Spaces

  type Pattern = seq<Token>

  /** The language of a pattern: the words it matches in full. */
  ghost predicate Denotes(w: string, p: Pattern)
    decreases |p|
  {
    if p == [] then w == []
    else match p[0]
      case Lit(t) => |t| <= |w| && w[..|t|] == t && Denotes(w[|t|..], p[1..])
      case Spaces => exists k :: 1 <= k <= |w| && AllSpace(w[..k]) && Denotes(w[k..], p[1..])
  }

  /** Backtracking matcher: does `p` match some prefix of `s[i..]`? */
  function MatchAt(s: string, i: nat, p: Pattern): bool
    requires i <= |s|
    decreases |p|, |s| - i, 1
  {
    if p == [] then true
    else match p[0]
      case Lit(t) => i + |t| <= |s| && s[i..i + |t|] == t && MatchAt(s, i + |t|, p[1..])
      case Spaces => SpaceRunThen(s, i, p[1..])
  }

  /** `\s+` starting at index `i`, followed by `rest`: tries every run length. */
  function SpaceRunThen(s: string, i: nat, rest: Pattern): bool
    requires i <= |s|
    decreases |rest| + 1, |s| - i, 0
  {
    i < |s| && IsJsSpace(s[i]) && (MatchAt(s, i + 1, rest) || SpaceRunThen(s, i + 1, rest))
  }

  /** Prepending a whitespace character keeps a string all-whitespace. */
  lemma AllSpaceCons(c: char, w: string)
    requires IsJsSpace(c) && AllSpace(w)
    ensures AllSpace([c] + w)
  {
  }

  /** The matcher succeeds at `i` exactly when some word of the pattern's
      language starts at `i`. */
  lemma {:induction false} MatchAtIff(s: string, i: nat, p: Pattern)
    requires i <= |s|
    ensures MatchAt(s, i, p) <==> exists j :: i <= j <= |s| && Denotes(s[i..j], p)
    decreases |p|, |s| - i, 2
  {
    if p == [] {
      assert Denotes(s[i..i], p);
    } else {
      match p[0]
      case Lit(t) =>
        if MatchAt(s, i, p) {
          MatchAtIff(s, i + |t|, p[1..]);
          var j :| i + |t| <= j <= |s| && Denotes(s[i + |t|..j], p[1..]);
          assert s[i..j][..|t|] == s[i..i + |t|];
          assert s[i..j][|t|..] == s[i + |t|..j];
          assert Denotes(s[i..j], p);
        }
        if exists j :: i <= j <= |s| && Denotes(s[i..j], p) {
          var j :| i <= j <= |s| && Denotes(s[i..j], p);
          assert s[i..j][..|t|] == s[i..i + |t|];
          assert s[i..j][|t|..] == s[i + |t|..j];
          MatchAtIff(s, i + |t|, p[1..]);
          assert MatchAt(s, i + |t|, p[1..]);
        }
      case Spaces =>
        assert p == [Spaces] + p[1..];
        SpaceRunIff(s, i, p[1..]);
    }
  }

  /** The `\s+` matcher succeeds exactly when a whitespace run followed by a
      word of `rest`'s language starts at `i`. */
  lemma SpaceRunIff(s: string, i: nat, rest: Pattern)
    requires i <= |s|
    ensures SpaceRunThen(s, i, rest) <==> exists j :: i <= j <= |s| && Denotes(s[i..j], [Spaces] + rest)
    decreases |rest| + 1, |s| - i, 1
  {
    SpaceRunSound(s, i, rest);
    SpaceRunComplete(s, i, rest);
  }

  lemma {:induction false} SpaceRunSound(s: string, i: nat, rest: Pattern)
    requires i <= |s|
    ensures SpaceRunThen(s, i, rest) ==> exists j :: i <= j <= |s| && Denotes(s[i..j], [Spaces] + rest)
    decreases |rest| + 1, |s| - i, 0
  {
    var p := [Spaces] + rest;
    assert p[1..] == rest;
    if SpaceRunThen(s, i, rest) {
      if MatchAt(s, i + 1, rest) {
        // A run of length one followed by a word of `rest`.
        MatchAtIff(s, i + 1, rest);
        var j :| i + 1 <= j <= |s| && Denotes(s[i + 1..j], rest);
        assert s[i..j][..1] == [s[i]];
        assert s[i..j][1..] == s[i + 1..j];
        assert Denotes(s[i..j], p);
      } else {
        // One more space in front of a run that already matches.
        SpaceRunSound(s, i + 1, rest);
        var j :| i + 1 <= j <= |s| && Denotes(s[i + 1..j], p);
        SpaceRunExtend(s, i, j, rest);
      }
    }
  }

  /** A whitespace character in front of a word of `\s+` followed by `rest`
      gives another word of that language. */
  lemma SpaceRunExtend(s: string, i: nat, j: nat, rest: Pattern)
    requires i + 1 <= j <= |s| && IsJsSpace(s[i])
    requires Denotes(s[i + 1..j], [Spaces] + rest)
    ensures Denotes(s[i..j], [Spaces] + rest)
  {
    var p := [Spaces] + rest;
    assert p[1..] == rest;
    var w := s[i + 1..j];
    var k :| 1 <= k <= |w| && AllSpace(w[..k]) && Denotes(w[k..], rest);
    assert s[i..j][k + 1..] == w[k..];
    assert s[i..j][..k + 1] == [s[i]] + w[..k];
    AllSpaceCons(s[i], w[..k]);
  }

  lemma {:induction false} SpaceRunComplete(s: string, i: nat, rest: Pattern)
    requires i <= |s|
    ensures (exists j :: i <= j <= |s| && Denotes(s[i..j], [Spaces] + rest)) ==> SpaceRunThen(s, i, rest)
    decreases |rest| + 1, |s| - i, 0
  {
    var p := [Spaces] + rest;
    assert p[1..] == rest;
    if exists j :: i <= j <= |s| && Denotes(s[i..j], p) {
      // Split off the first space of the run.
      var j :| i <= j <= |s| && Denotes(s[i..j], p);
      var k :| 1 <= k <= |s[i..j]| && AllSpace(s[i..j][..k]) && Denotes(s[i..j][k..], rest);
      assert s[i..j][..k][0] == s[i];
      if k == 1 {
        assert s[i..j][1..] == s[i + 1..j];
        MatchAtIff(s, i + 1, rest);
        assert MatchAt(s, i + 1, rest);
      } else {
        assert s[i + 1..j][k - 1..] == s[i..j][k..];
        assert s[i + 1..j][..k - 1] == s[i..j][..k][1..];
        assert Denotes(s[i + 1..j], p);
        SpaceRunComplete(s, i + 1, rest);
        assert SpaceRunThen(s, i + 1, rest);
      }
    }
  }

  /** Whether the matcher succeeds depends only on the text from the start
      position on: a match in `w` is a match wherever `w` occurs. */
  lemma MatchAtShift(s: string, i: nat, w: string, p: Pattern)
    requires i + |w| <= |s| && s[i..i + |w|] == w
    requires MatchAt(w, 0, p)
    ensures MatchAt(s, i, p)
  {
    MatchAtIff(w, 0, p);
    var j :| 0 <= j <= |w| && Denotes(w[0..j], p);
    assert w[0..j] == s[i..i + j];
    MatchAtIff(s, i, p);
  }

  /** Regular-expression `test`: does the pattern match anywhere in `s`
      at or after index `i`? */
  function MatchesFrom(s: string, i: nat, p: Pattern): bool
    requires i <= |s|
    decreases |s| - i
  {
    MatchAt(s, i, p) || (i < |s| && MatchesFrom(s, i + 1, p))
  }

  function Matches(s: string, p: Pattern): bool {
    MatchesFrom(s, 0, p)
  }

  lemma {:induction false} MatchesFromIff(s: string, i: nat, p: Pattern)
    requires i <= |s|
    ensures MatchesFrom(s, i, p) <==> exists a: nat :: i <= a <= |s| && MatchAt(s, a, p)
    decreases |s| - i
  {
    if MatchAt(s, i, p) {
      assert MatchesFrom(s, i, p);
      assert i <= i <= |s| && MatchAt(s, i, p);
      assert exists a: nat :: i <= a <= |s| && MatchAt(s, a, p);
    } else if i < |s| {
      MatchesFromIff(s, i + 1, p);
      assert MatchesFrom(s, i, p) == MatchesFrom(s, i + 1, p);
      if MatchesFrom(s, i + 1, p) {
        var a: nat :| i + 1 <= a <= |s| && MatchAt(s, a, p);
        assert i <= a <= |s| && MatchAt(s, a, p);
        assert exists a: nat :: i <= a <= |s| && MatchAt(s, a, p);
      } else {
        forall a: nat | i <= a <= |s|
          ensures !MatchAt(s, a, p)
        {
          if a > i {
            assert !(i + 1 <= a <= |s| && MatchAt(s, a, p));
          }
        }
        assert !MatchesFrom(s, i, p);
      }
    } else {
      forall a: nat | i <= a <= |s|
        ensures !MatchAt(s, a, p)
      {
        assert a == i;
      }
      assert !MatchesFrom(s, i, p);
    }
  }

  /** A match at position `i` makes the unanchored search from any earlier
      position succeed. */
  lemma {:induction false} MatchesFromBefore(s: string, k: nat, i: nat, p: Pattern)
    requires k <= i <= |s| && MatchAt(s, i, p)
    ensures MatchesFrom(s, k, p)
    decreases i - k
  {
    if k < i {
      MatchesFromBefore(s, k + 1, i, p);
    }
  }

  /** An unanchored test succeeds exactly when some substring of `s` is a
      word of the pattern's language. */
  lemma MatchesIff(s: string, p: Pattern)
    ensures Matches(s, p) <==> exists a, b :: 0 <= a <= b <= |s| && Denotes(s[a..b], p)
  {
    MatchesFromIff(s, 0, p);
    if Matches(s, p) {
      var a: nat :| a <= |s| && MatchAt(s, a, p);
      MatchAtIff(s, a, p);
      var b :| a <= b <= |s| && Denotes(s[a..b], p);
      assert 0 <= a <= b <= |s| && Denotes(s[a..b], p);
    }
    if exists a, b :: 0 <= a <= b <= |s| && Denotes(s[a..b], p) {
      var a, b :| 0 <= a <= b <= |s| && Denotes(s[a..b], p);
      MatchAtIff(s, a, p);
      assert MatchAt(s, a, p);
    }
  }

  /** A one-literal pattern is plain substring search. */
  lemma MatchesLiteralIff(s: string, w: string)
    ensures Matches(s, [Lit(w)]) <==> Contains(s, w)
  {
    var p := [Lit(w)];
    assert p[1..] == [];
    MatchesIff(s, p);
    forall a, b | 0 <= a <= b <= |s| && Denotes(s[a..b], p)
      ensures OccursAt(s, w, a)
    {
      assert Denotes(s[a..b][|w|..], p[1..]);
      assert s[a..b][|w|..] == [];
      assert s[a..b] == s[a..b][..|w|];
    }
    forall a | OccursAt(s, w, a)
      ensures Denotes(s[a..a + |w|], p)
    {
      assert s[a..a + |w|][|w|..] == [];
      assert Denotes(s[a..a + |w|][|w|..], p[1..]);
    }
  }

  /** A pattern that starts with a literal can only match where that literal occurs. */
  lemma MatchesLeadingLiteral(s: string, w: string, rest: Pattern)
    requires Matches(s, [Lit(w)] + rest)
    ensures Contains(s, w)
  {
    var p := [Lit(w)] + rest;
    MatchesIff(s, p);
    var a, b :| 0 <= a <= b <= |s| && Denotes(s[a..b], p);
    assert s[a..b][..|w|] == s[a..a + |w|];
    ContainsAt(s, w, a);
  }
}
