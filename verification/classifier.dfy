/**
 The message classifier: the failure and success alternations the tracker
 tests every dequeued message against.  Both tracker variants share the
 failure alternation; their success alternations differ in one phrase.
 */
module Classifier {
  import opened Text
  import opened Patterns

  /** `no video|couldn'?t find any video stream|no audio|error|aborting process`,
      with the optional apostrophe written out as two literals. */
  const FailurePatterns: seq<Pattern> := [
    [Lit("no video")],
    [Lit("couldn't find any video stream")],
    [Lit("couldnt find any video stream")],
    [Lit("no audio")],
    [Lit("error")],
    [Lit("aborting process")]
  ]

  /** `already\s+in\s+sync` */
  const AlreadyInSync: Pattern := [Lit("already"), Spaces, Lit("in"), Spaces, Lit("sync")]

  /** `already\s+synchronized` */
  const AlreadySynchronized: Pattern := [Lit("already"), Spaces, Lit("synchronized")]

  /** The success alternation of the context provider. */
  const ProviderSuccessPatterns: seq<Pattern> := [
    AlreadyInSync,
    AlreadySynchronized,
    [Lit("get your file")],
    [Lit("our clip is already in sync")]
  ]

  /** The success alternation of the standalone component. */
  const StandaloneSuccessPatterns: seq<Pattern> := [
    AlreadyInSync,
    AlreadySynchronized,
    [Lit("download your file")],
    [Lit("our clip is already in sync")]
  ]

  /** An alternation succeeds when one of its alternatives matches. */
  predicate AnyMatches(s: string, alternatives: seq<Pattern>) {
    exists k :: 0 <= k < |alternatives| && Matches(s, alternatives[k])
  }

  /** The failure test, case-insensitive. */
  predicate IsFailure(msg: string) {
    AnyMatches(Lower(msg), FailurePatterns)
  }

  /** The context provider's success test, case-insensitive. */
  predicate IsProviderSuccess(msg: string) {
    AnyMatches(Lower(msg), ProviderSuccessPatterns)
  }

  /** The standalone component's success test, case-insensitive. */
  predicate IsStandaloneSuccess(msg: string) {
    AnyMatches(Lower(msg), StandaloneSuccessPatterns)
  }

  /** The failure alternation is exactly a case-insensitive search for one
      of six phrases. */
  lemma FailureIff(msg: string)
    ensures IsFailure(msg) <==>
      || Contains(Lower(msg), "no video")
      || Contains(Lower(msg), "couldn't find any video stream")
      || Contains(Lower(msg), "couldnt find any video stream")
      || Contains(Lower(msg), "no audio")
      || Contains(Lower(msg), "error")
      || Contains(Lower(msg), "aborting process")
  {
    var s := Lower(msg);
    MatchesLiteralIff(s, "no video");
    MatchesLiteralIff(s, "couldn't find any video stream");
    MatchesLiteralIff(s, "couldnt find any video stream");
    MatchesLiteralIff(s, "no audio");
    MatchesLiteralIff(s, "error");
    MatchesLiteralIff(s, "aborting process");
    assert AnyMatches(s, FailurePatterns) <==>
      || Matches(s, FailurePatterns[0]) || Matches(s, FailurePatterns[1])
      || Matches(s, FailurePatterns[2]) || Matches(s, FailurePatterns[3])
      || Matches(s, FailurePatterns[4]) || Matches(s, FailurePatterns[5]);
  }

  /** A literal followed by a word of `rest`'s language is a word of the
      longer pattern's language. */
  lemma DenotesLit(t: string, w: string, rest: Pattern)
    requires Denotes(w, rest)
    ensures Denotes(t + w, [Lit(t)] + rest)
  {
    var p := [Lit(t)] + rest;
    assert p[1..] == rest;
    assert (t + w)[..|t|] == t;
    assert (t + w)[|t|..] == w;
  }

  /** A non-empty whitespace run followed by a word of `rest`'s language is
      a word of `\s+` followed by `rest`. */
  lemma DenotesSpaces(ws: string, w: string, rest: Pattern)
    requires 1 <= |ws| && AllSpace(ws)
    requires Denotes(w, rest)
    ensures Denotes(ws + w, [Spaces] + rest)
  {
    var p := [Spaces] + rest;
    assert p[1..] == rest;
    assert (ws + w)[..|ws|] == ws;
    assert (ws + w)[|ws|..] == w;
  }

  /** A literal alone is the one word of its own pattern. */
  lemma DenotesLitOnly(t: string)
    ensures Denotes(t, [Lit(t)])
  {
    var p := [Lit(t)];
    assert p[1..] == [];
    assert t[|t|..] == [];
  }

  /** `already\s+in\s+sync` accepts any non-empty whitespace runs between
      its words: spaces, tabs, line breaks, no-break spaces. */
  lemma AlreadyInSyncDenotes(a: string, b: string)
    requires 1 <= |a| && AllSpace(a)
    requires 1 <= |b| && AllSpace(b)
    ensures Denotes("already" + (a + ("in" + (b + "sync"))), AlreadyInSync)
  {
    var p4: Pattern := [Lit("sync")];
    var p3: Pattern := [Spaces] + p4;
    var p2: Pattern := [Lit("in")] + p3;
    var p1: Pattern := [Spaces] + p2;
    DenotesLitOnly("sync");
    DenotesSpaces(b, "sync", p4);
    DenotesLit("in", b + "sync", p3);
    DenotesSpaces(a, "in" + (b + "sync"), p2);
    DenotesLit("already", a + ("in" + (b + "sync")), p1);
    assert [Lit("already")] + p1 == AlreadyInSync;
  }

  /** A message holding "already", a whitespace run, "in", another run and
      "sync" is a success in both variants, whatever surrounds it: tabs,
      line breaks, no-break spaces and runs of several spaces all count. */
  lemma SpacedInSyncSucceeds(pre: string, a: string, b: string, post: string)
    requires 1 <= |a| && AllSpace(a)
    requires 1 <= |b| && AllSpace(b)
    ensures IsProviderSuccess(pre + ("already" + (a + ("in" + (b + "sync")))) + post)
    ensures IsStandaloneSuccess(pre + ("already" + (a + ("in" + (b + "sync")))) + post)
  {
    var w := "already" + (a + ("in" + (b + "sync")));
    var msg := pre + w + post;
    var s := Lower(msg);
    var i := |pre|;
    forall k | 0 <= k < |w|
      ensures s[i + k] == w[k]
    {
      assert msg[i + k] == w[k];
      assert !IsUpper(w[k]) by {
        if k < 7 || 7 + |a| <= k < 9 + |a| || 9 + |a| + |b| <= k {
        } else if k < 7 + |a| {
          assert w[k] == a[k - 7];
        } else {
          assert w[k] == b[k - 9 - |a|];
        }
      }
    }
    assert s[i..i + |w|] == w;
    AlreadyInSyncDenotes(a, b);
    MatchesIff(s, AlreadyInSync);
    assert Matches(s, ProviderSuccessPatterns[0]);
    assert Matches(s, StandaloneSuccessPatterns[0]);
  }

  /** A tab and a double space between the words still make a success. */
  lemma TabbedInSyncSucceeds()
    ensures IsProviderSuccess("Clip already\tin  sync.")
    ensures IsStandaloneSuccess("Clip already\tin  sync.")
  {
    SpacedInSyncSucceeds("Clip ", "\t", "  ", ".");
    assert "Clip " + ("already" + ("\t" + ("in" + ("  " + "sync")))) + "." == "Clip already\tin  sync.";
  }

  /** The phrase with single spaces matches `already\s+in\s+sync`. */
  lemma AlreadyInSyncPhrase(w: string)
    requires w == "already in sync"
    ensures MatchAt(w, 0, AlreadyInSync)
  {
    var p4: Pattern := [Lit("sync")];
    var p3: Pattern := [Spaces] + p4;
    var p2: Pattern := [Lit("in")] + p3;
    var p1: Pattern := [Spaces] + p2;
    assert p4[1..] == [] && p3[1..] == p4 && p2[1..] == p3 && p1[1..] == p2;
    assert w[11..15] == "sync";
    assert MatchAt(w, 11, p4);
    assert IsJsSpace(w[10]);
    assert SpaceRunThen(w, 10, p4);
    assert w[8..10] == "in";
    assert MatchAt(w, 8, p2);
    assert IsJsSpace(w[7]);
    assert SpaceRunThen(w, 7, p2);
    assert w[0..7] == "already";
    assert [Lit("already")] + p1 == AlreadyInSync;
  }

  /** Every message holding "already in sync" (any case) matches the
      whitespace-tolerant alternative. */
  lemma ContainsAlreadyInSync(s: string)
    requires Contains(s, "already in sync")
    ensures Matches(s, AlreadyInSync)
  {
    var i :| 0 <= i <= |s| && OccursAt(s, "already in sync", i);
    var w := s[i..i + 15];
    AlreadyInSyncPhrase(w);
    MatchAtShift(s, i, w, AlreadyInSync);
    MatchesFromBefore(s, 0, i, AlreadyInSync);
  }

  /** The alternative `our clip is already in sync` never decides a test on
      its own: every message it matches is already matched by
      `already\s+in\s+sync`. */
  lemma OurClipIsRedundant(s: string)
    requires Contains(s, "our clip is already in sync")
    ensures Matches(s, AlreadyInSync)
  {
    assert OccursAt("our clip is already in sync", "already in sync", 12);
    ContainsAt("our clip is already in sync", "already in sync", 12);
    ContainsTrans(s, "our clip is already in sync", "already in sync");
    ContainsAlreadyInSync(s);
  }

  /** The context provider's success alternation comes down to three tests:
      the fourth alternative is subsumed by the first. */
  lemma ProviderSuccessIff(msg: string)
    ensures IsProviderSuccess(msg) <==>
      || Matches(Lower(msg), AlreadyInSync)
      || Matches(Lower(msg), AlreadySynchronized)
      || Contains(Lower(msg), "get your file")
  {
    var s := Lower(msg);
    MatchesLiteralIff(s, "get your file");
    MatchesLiteralIff(s, "our clip is already in sync");
    if Contains(s, "our clip is already in sync") {
      OurClipIsRedundant(s);
    }
    assert AnyMatches(s, ProviderSuccessPatterns) <==>
      || Matches(s, ProviderSuccessPatterns[0]) || Matches(s, ProviderSuccessPatterns[1])
      || Matches(s, ProviderSuccessPatterns[2]) || Matches(s, ProviderSuccessPatterns[3]);
  }

  /** The standalone component's success alternation comes down to three
      tests: the fourth alternative is subsumed by the first. */
  lemma StandaloneSuccessIff(msg: string)
    ensures IsStandaloneSuccess(msg) <==>
      || Matches(Lower(msg), AlreadyInSync)
      || Matches(Lower(msg), AlreadySynchronized)
      || Contains(Lower(msg), "download your file")
  {
    var s := Lower(msg);
    MatchesLiteralIff(s, "download your file");
    MatchesLiteralIff(s, "our clip is already in sync");
    if Contains(s, "our clip is already in sync") {
      OurClipIsRedundant(s);
    }
    assert AnyMatches(s, StandaloneSuccessPatterns) <==>
      || Matches(s, StandaloneSuccessPatterns[0]) || Matches(s, StandaloneSuccessPatterns[1])
      || Matches(s, StandaloneSuccessPatterns[2]) || Matches(s, StandaloneSuccessPatterns[3]);
  }

  /** Both whitespace-tolerant alternatives begin with the word "already", so
      a provider success needs that word or the phrase "get your file". */
  lemma ProviderSuccessNeedsPhrase(msg: string)
    ensures IsProviderSuccess(msg) ==>
      Contains(Lower(msg), "already") || Contains(Lower(msg), "get your file")
  {
    var s := Lower(msg);
    ProviderSuccessIff(msg);
    AlreadyLeads(s);
  }

  /** A standalone success needs the word "already" or the phrase
      "download your file". */
  lemma StandaloneSuccessNeedsPhrase(msg: string)
    ensures IsStandaloneSuccess(msg) ==>
      Contains(Lower(msg), "already") || Contains(Lower(msg), "download your file")
  {
    var s := Lower(msg);
    StandaloneSuccessIff(msg);
    AlreadyLeads(s);
  }

  /** A string matched by either `already\s+...` alternative contains "already". */
  lemma AlreadyLeads(s: string)
    ensures Matches(s, AlreadyInSync) ==> Contains(s, "already")
    ensures Matches(s, AlreadySynchronized) ==> Contains(s, "already")
  {
    assert AlreadyInSync == [Lit("already")] + AlreadyInSync[1..];
    assert AlreadySynchronized == [Lit("already")] + AlreadySynchronized[1..];
    if Matches(s, AlreadyInSync) {
      MatchesLeadingLiteral(s, "already", AlreadyInSync[1..]);
    }
    if Matches(s, AlreadySynchronized) {
      MatchesLeadingLiteral(s, "already", AlreadySynchronized[1..]);
    }
  }
}
