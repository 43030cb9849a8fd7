/** Completeness of `_extract_player_data`'s patterns: a description written
    in the shape a pattern describes is found by it, and the record gets back
    exactly what was written (tier name in the pattern's spelling, division,
    LP, wins and losses, champion entries). The worked examples of the
    source's comments are proved on their whole text. */
module Completeness {
  import opened Options
  import opened Text
  import opened Regex
  import opened Extraction

  // ---------------------------------------------------------------------------
  // Tier names told apart by their first two letters
  // ---------------------------------------------------------------------------

  /** The lower-cased first two letters of the apex tier names. */
  const ApexOpenings: seq<(char, char)> := [('m', 'a'), ('g', 'r'), ('c', 'h')]

  /** The lower-cased first two letters of the division tier names. */
  const DivisionOpenings: seq<(char, char)> :=
    [('i', 'r'), ('b', 'r'), ('s', 'i'), ('g', 'o'), ('p', 'l'), ('d', 'i'), ('e', 'm')]

  lemma ApexOpeningsOf()
    ensures OpensAs(ApexTiers, ApexOpenings) && Distinct(ApexOpenings)
  {
    assert ApexTiers == ["Master", "Grandmaster", "Challenger"];
    assert PairAt("Master", 0) == ('m', 'a');
    assert PairAt("Grandmaster", 0) == ('g', 'r');
    assert PairAt("Challenger", 0) == ('c', 'h');
    assert Distinct([('m', 'a'), ('g', 'r'), ('c', 'h')]);
  }

  lemma DivisionOpeningsOf()
    ensures OpensAs(DivisionTiers, DivisionOpenings)
    ensures DuplicatedPattern[0].alts == DivisionTiers
  {
    var tiers := ["Iron", "Bronze", "Silver", "Gold", "Platinum", "Diamond", "Emerald"];
    assert DivisionTiers == tiers;
    assert PairAt("Iron", 0) == ('i', 'r');
    assert PairAt("Bronze", 0) == ('b', 'r');
    assert PairAt("Silver", 0) == ('s', 'i');
    assert PairAt("Gold", 0) == ('g', 'o');
    assert PairAt("Platinum", 0) == ('p', 'l');
    assert PairAt("Diamond", 0) == ('d', 'i');
    assert PairAt("Emerald", 0) == ('e', 'm');
    forall i | 0 <= i < |tiers|
      ensures |tiers[i]| >= 2 && PairAt(tiers[i], 0) == DivisionOpenings[i]
    {
    }
  }

  lemma DivisionOpeningsDistinct()
    ensures Distinct(DivisionOpenings)
  {
    assert Distinct([('i', 'r'), ('b', 'r'), ('s', 'i'), ('g', 'o'), ('p', 'l'), ('d', 'i'), ('e', 'm')]);
  }

  /** No two consecutive characters of `s` from position `k` on open one of
      the alternatives with openings `ops`. */
  predicate AvoidsFrom(s: string, ops: seq<(char, char)>, k: nat)
    decreases |s| - k
  {
    k + 1 >= |s| || (PairAt(s, k) !in ops && AvoidsFrom(s, ops, k + 1))
  }

  lemma {:induction false} AvoidsAt(s: string, ops: seq<(char, char)>, k: nat, m: nat)
    requires AvoidsFrom(s, ops, k) && k <= m && m + 1 < |s|
    ensures PairAt(s, m) !in ops
    decreases m - k
  {
    if k < m {
      AvoidsAt(s, ops, k + 1, m);
    }
  }

  /** The converse of `AvoidsAt`. */
  lemma {:induction false} AvoidsOfPairs(s: string, ops: seq<(char, char)>, k: nat)
    requires forall m :: k <= m && m + 1 < |s| ==> PairAt(s, m) !in ops
    ensures AvoidsFrom(s, ops, k)
    decreases |s| - k
  {
    if k + 1 < |s| {
      AvoidsOfPairs(s, ops, k + 1);
    }
  }

  /** Two texts that avoid the openings, and do not form one where they
      meet, avoid them once joined. */
  lemma AvoidsJoin(a: string, b: string, ops: seq<(char, char)>, k: nat)
    requires k <= |a| && AvoidsFrom(a, ops, k) && AvoidsFrom(b, ops, 0)
    requires k < |a| && b != [] ==> (LowerChar(a[|a| - 1]), LowerChar(b[0])) !in ops
    ensures AvoidsFrom(a + b, ops, k)
  {
    var s := a + b;
    forall m | k <= m && m + 1 < |s|
      ensures PairAt(s, m) !in ops
    {
      if m + 1 < |a| {
        AvoidsAt(a, ops, k, m);
        assert PairAt(s, m) == PairAt(a, m);
      } else if m + 1 == |a| {
        assert PairAt(s, m) == (LowerChar(a[|a| - 1]), LowerChar(b[0]));
      } else {
        AvoidsAt(b, ops, 0, m - |a|);
        assert PairAt(s, m) == PairAt(b, m - |a|);
      }
    }
    AvoidsOfPairs(s, ops, k);
  }

  /** A pattern opening with alternatives matches nowhere from `k` on in
      text that avoids their openings from `k` on. */
  lemma {:induction false} AbsentFrom(ps: seq<Piece>, ops: seq<(char, char)>, s: string, k: nat)
    requires ps != [] && ps[0].OneOf? && OpensAs(ps[0].alts, ops)
    requires k <= |s| && AvoidsFrom(s, ops, k)
    ensures forall m :: k <= m <= |s| ==> MatchAt(ps, s, m).None?
    decreases |s| - k
  {
    NoMatchHere(ps, ops, s, k);
    if k < |s| {
      if k + 1 < |s| {
        AbsentFrom(ps, ops, s, k + 1);
      } else {
        NoMatchHere(ps, ops, s, k + 1);
      }
    }
  }

  /** ... so `re.search` finds nothing in text that avoids them throughout. */
  lemma Absent(ps: seq<Piece>, ops: seq<(char, char)>, s: string)
    requires ps != [] && ps[0].OneOf? && OpensAs(ps[0].alts, ops) && AvoidsFrom(s, ops, 0)
    ensures Search(ps, s, 0).None?
  {
    AbsentFrom(ps, ops, s, 0);
  }

  /** ... and matches at no position of a prefix that avoids them, up to
      the pair that reaches into what follows. */
  lemma AbsentBefore(ps: seq<Piece>, ops: seq<(char, char)>, pre: string, u: string)
    requires ps != [] && ps[0].OneOf? && OpensAs(ps[0].alts, ops) && AvoidsFrom(pre, ops, 0)
    requires pre != [] && u != [] ==> (LowerChar(pre[|pre| - 1]), LowerChar(u[0])) !in ops
    ensures forall k :: 0 <= k < |pre| ==> MatchAt(ps, pre + u, k).None?
  {
    var s := pre + u;
    forall k | 0 <= k < |pre|
      ensures MatchAt(ps, s, k).None?
    {
      if k + 1 < |pre| {
        AvoidsAt(pre, ops, 0, k);
        assert PairAt(s, k) == PairAt(pre, k);
      } else if u != [] {
        assert PairAt(s, k) == (LowerChar(pre[|pre| - 1]), LowerChar(u[0]));
      }
      NoMatchHere(ps, ops, s, k);
    }
  }

  /** Inside a division tier name no two letters open an apex tier name, and
      after its first letter none open a division tier name. */
  lemma TierWordPairs(t: string)
    requires t in DivisionTiers
    ensures AvoidsFrom(t, ApexOpenings, 0) && AvoidsFrom(t, DivisionOpenings, 1)
  {
    assert DivisionTiers == ["Iron", "Bronze", "Silver", "Gold", "Platinum", "Diamond", "Emerald"];
    if t == "Iron" {
      IronPairs();
    } else if t == "Bronze" {
      BronzePairs();
    } else if t == "Silver" {
      SilverPairs();
    } else if t == "Gold" {
      GoldPairs();
    } else if t == "Platinum" {
      PlatinumPairs();
    } else if t == "Diamond" {
      DiamondPairs();
    } else {
      EmeraldPairs();
    }
  }

  lemma IronPairs()
    ensures AvoidsFrom("Iron", ApexOpenings, 0) && AvoidsFrom("Iron", DivisionOpenings, 1)
  {
    assert AvoidsFrom("Iron", [('m', 'a'), ('g', 'r'), ('c', 'h')], 0);
    assert AvoidsFrom("Iron", [('i', 'r'), ('b', 'r'), ('s', 'i'), ('g', 'o'), ('p', 'l'), ('d', 'i'), ('e', 'm')], 1);
  }

  lemma BronzePairs()
    ensures AvoidsFrom("Bronze", ApexOpenings, 0) && AvoidsFrom("Bronze", DivisionOpenings, 1)
  {
    assert AvoidsFrom("Bronze", [('m', 'a'), ('g', 'r'), ('c', 'h')], 0);
    assert AvoidsFrom("Bronze", [('i', 'r'), ('b', 'r'), ('s', 'i'), ('g', 'o'), ('p', 'l'), ('d', 'i'), ('e', 'm')], 1);
  }

  lemma SilverPairs()
    ensures AvoidsFrom("Silver", ApexOpenings, 0) && AvoidsFrom("Silver", DivisionOpenings, 1)
  {
    assert AvoidsFrom("Silver", [('m', 'a'), ('g', 'r'), ('c', 'h')], 0);
    assert AvoidsFrom("Silver", [('i', 'r'), ('b', 'r'), ('s', 'i'), ('g', 'o'), ('p', 'l'), ('d', 'i'), ('e', 'm')], 1);
  }

  lemma GoldPairs()
    ensures AvoidsFrom("Gold", ApexOpenings, 0) && AvoidsFrom("Gold", DivisionOpenings, 1)
  {
    assert AvoidsFrom("Gold", [('m', 'a'), ('g', 'r'), ('c', 'h')], 0);
    assert AvoidsFrom("Gold", [('i', 'r'), ('b', 'r'), ('s', 'i'), ('g', 'o'), ('p', 'l'), ('d', 'i'), ('e', 'm')], 1);
  }

  lemma PlatinumPairs()
    ensures AvoidsFrom("Platinum", ApexOpenings, 0) && AvoidsFrom("Platinum", DivisionOpenings, 1)
  {
    assert AvoidsFrom("Platinum", [('m', 'a'), ('g', 'r'), ('c', 'h')], 0);
    assert AvoidsFrom("Platinum", [('i', 'r'), ('b', 'r'), ('s', 'i'), ('g', 'o'), ('p', 'l'), ('d', 'i'), ('e', 'm')], 1);
  }

  lemma DiamondPairs()
    ensures AvoidsFrom("Diamond", ApexOpenings, 0) && AvoidsFrom("Diamond", DivisionOpenings, 1)
  {
    assert AvoidsFrom("Diamond", [('m', 'a'), ('g', 'r'), ('c', 'h')], 0);
    assert AvoidsFrom("Diamond", [('i', 'r'), ('b', 'r'), ('s', 'i'), ('g', 'o'), ('p', 'l'), ('d', 'i'), ('e', 'm')], 1);
  }

  lemma EmeraldPairs()
    ensures AvoidsFrom("Emerald", ApexOpenings, 0) && AvoidsFrom("Emerald", DivisionOpenings, 1)
  {
    assert AvoidsFrom("Emerald", [('m', 'a'), ('g', 'r'), ('c', 'h')], 0);
    assert AvoidsFrom("Emerald", [('i', 'r'), ('b', 'r'), ('s', 'i'), ('g', 'o'), ('p', 'l'), ('d', 'i'), ('e', 'm')], 1);
  }

  // ---------------------------------------------------------------------------
  // Tier texts
  // ---------------------------------------------------------------------------

  /** A non-empty string of decimal digits. */
  predicate Digits(d: string) { d != [] && AllDigits(d) }

  /** "LP" in any case. */
  predicate LpMark(lp: string) { |lp| == 2 && SameLetters(lp, "LP") }

  lemma LpLetters(lp: string)
    requires LpMark(lp)
    ensures LowerChar(lp[0]) == 'l' && LowerChar(lp[1]) == 'p'
    ensures !IsSpace(lp[0]) && !IsDigit(lp[0]) && !IsSpace(lp[1]) && !IsDigit(lp[1])
  {
    LowerOfSpelling("LP", "lp");
    assert Lower(lp)[0] == 'l' && Lower(lp)[1] == 'p';
  }

  /** A tier as the description writes it: "Gold 3 45LP", "Master 1 47LP". */
  function TierText(t: string, d: string, l: string, lp: string): string {
    t + " " + d + " " + l + lp
  }

  /** A division tier with the division written twice: "Platinum 1 1 39LP". */
  function DuplicatedText(t: string, d: string, n: string, l: string, lp: string): string {
    t + " " + d + " " + n + " " + l + lp
  }


  /** A space, the LP digits and the mark fit the end of a tier pattern. */
  lemma LpEndFitted(l: string, lp: string, rest: string)
    requires Digits(l) && LpMark(lp)
    ensures Fitted(LpEnd, [" ", l, "", lp], rest)
    ensures Concat([" ", l, "", lp]) == " " + l + lp
    ensures Groups(LpEnd, [" ", l, "", lp]) == [l]
  {
    var q2, f2 := LpEnd[2..], ["", lp];
    LpMarkFitted(lp, rest);
    LpLetters(lp);
    FittedCons(Run(Digit, true, true), q2, l, f2, rest);
    var q3, f3 := [Run(Digit, true, true)] + q2, [l] + f2;
    FittedCons(Run(Space, true, false), q3, " ", f3, rest);
    assert [Run(Space, true, false)] + q3 == LpEnd;
    assert [" "] + f3 == [" ", l, "", lp];
  }

  /** The optional space and the LP mark. */
  lemma LpMarkFitted(lp: string, rest: string)
    requires LpMark(lp)
    ensures Fitted(LpEnd[2..], ["", lp], rest)
    ensures Concat(["", lp]) == lp && Groups(LpEnd[2..], ["", lp]) == []
  {
    LpLetters(lp);
    FittedCons(NoCase("LP"), [], lp, [], rest);
    FittedCons(Run(Space, false, false), [NoCase("LP")], "", [lp], rest);
    assert [Run(Space, false, false), NoCase("LP")] == LpEnd[2..];
  }

  /** A space and a number, in front of parts that start with a space, fit
      `\s+\d+` (or `\s+(\d+)` when `captured`). */
  lemma SpacedDigitsFitted(captured: bool, d: string, ps: seq<Piece>, parts: seq<string>, rest: string)
    requires Digits(d) && Fitted(ps, parts, rest) && Concat(parts) != [] && Concat(parts)[0] == ' '
    ensures Fitted([Run(Space, true, false), Run(Digit, true, captured)] + ps, [" ", d] + parts, rest)
    ensures Concat([" ", d] + parts) == " " + d + Concat(parts)
    ensures Groups([Run(Space, true, false), Run(Digit, true, captured)] + ps, [" ", d] + parts)
            == (if captured then [d] else []) + Groups(ps, parts)
  {
    NumberFitted(captured, d, ps, parts, rest);
    var q, f := [Run(Digit, true, captured)] + ps, [d] + parts;
    assert (Concat(f) + rest)[0] == d[0];
    FittedCons(Run(Space, true, false), q, " ", f, rest);
    assert [Run(Space, true, false)] + q == [Run(Space, true, false), Run(Digit, true, captured)] + ps;
    assert [" "] + f == [" ", d] + parts;
    PrefixJoin(" ", d, Concat(parts));
  }

  /** A number in front of parts that start with a space fits `\d+`. */
  lemma NumberFitted(captured: bool, d: string, ps: seq<Piece>, parts: seq<string>, rest: string)
    requires Digits(d) && Fitted(ps, parts, rest) && Concat(parts) != [] && Concat(parts)[0] == ' '
    ensures Fitted([Run(Digit, true, captured)] + ps, [d] + parts, rest)
    ensures Concat([d] + parts) == d + Concat(parts)
    ensures Groups([Run(Digit, true, captured)] + ps, [d] + parts) == (if captured then [d] else []) + Groups(ps, parts)
  {
    var next := Concat(parts) + rest;
    assert next[0] == ' ';
    assert Fits(Run(Digit, true, captured), d, next);
    FittedCons(Run(Digit, true, captured), ps, d, parts, rest);
  }

  /** The `j`-th tier name, in any case, in front of parts that start with
      a space, fits the alternatives and is captured. */
  lemma TierNameFitted(alts: seq<string>, ops: seq<(char, char)>, j: nat, t: string,
                       ps: seq<Piece>, parts: seq<string>, rest: string)
    requires OpensAs(alts, ops) && Distinct(ops) && j < |alts| && SameLetters(t, alts[j])
    requires Fitted(ps, parts, rest)
    ensures Fitted([OneOf(alts)] + ps, [t] + parts, rest)
    ensures Concat([t] + parts) == t + Concat(parts)
    ensures Groups([OneOf(alts)] + ps, [t] + parts) == [t] + Groups(ps, parts)
  {
    var u := t + (Concat(parts) + rest);
    assert u[..|alts[j]|] == t;
    FirstAltOfOpening(alts, ops, u, j);
    FittedCons(OneOf(alts), ps, t, parts, rest);
  }

  lemma ApexPatternSplit()
    ensures ApexPattern == [OneOf(ApexTiers)] + NumberedTail(false)
  {
  }

  lemma SimplePatternSplit()
    ensures SimplePattern == [OneOf(DivisionTiers)] + NumberedTail(true)
  {
  }

  lemma DuplicatedPatternSplit()
    ensures DuplicatedPattern == [OneOf(DivisionTiers)] + ([Run(Space, true, false), Run(Digit, true, true)] + NumberedTail(false))
  {
    DivisionTierNames();
  }

  /** The parts a tier text splits into, one per piece of its pattern. */
  function TierParts(t: string, d: string, l: string, lp: string): seq<string> {
    [t, " ", d, " ", l, "", lp]
  }

  function DuplicatedParts(t: string, d: string, n: string, l: string, lp: string): seq<string> {
    [t, " ", d, " ", n, " ", l, "", lp]
  }

  lemma TierPartsSplit(t: string, d: string, l: string, lp: string)
    ensures TierParts(t, d, l, lp) == [t] + ([" ", d] + [" ", l, "", lp])
  {
  }

  lemma DuplicatedPartsSplit(t: string, d: string, n: string, l: string, lp: string)
    ensures DuplicatedParts(t, d, n, l, lp) == [t] + ([" ", d] + ([" ", n] + [" ", l, "", lp]))
  {
  }

  /** A space, a number, then the LP, fit the end of a tier pattern. */
  lemma NumberedTailFitted(captured: bool, d: string, l: string, lp: string, rest: string)
    requires Digits(d) && Digits(l) && LpMark(lp)
    ensures Fitted(NumberedTail(captured), [" ", d] + [" ", l, "", lp], rest)
    ensures Concat([" ", d] + [" ", l, "", lp]) == " " + d + (" " + l + lp)
    ensures Groups(NumberedTail(captured), [" ", d] + [" ", l, "", lp]) == (if captured then [d] else []) + [l]
  {
    LpEndFitted(l, lp, rest);
    assert Concat([" ", l, "", lp])[0] == ' ';
    SpacedDigitsFitted(captured, d, LpEnd, [" ", l, "", lp], rest);
  }

  /** The parts of a tier text fit a tier pattern piece by piece; the tier
      name, the number when it is captured, and the LP are its groups. */
  lemma TierFitted(alts: seq<string>, ops: seq<(char, char)>, captured: bool, j: nat,
                   t: string, d: string, l: string, lp: string, rest: string)
    requires OpensAs(alts, ops) && Distinct(ops) && j < |alts| && SameLetters(t, alts[j])
    requires Digits(d) && Digits(l) && LpMark(lp)
    ensures Fitted([OneOf(alts)] + NumberedTail(captured), TierParts(t, d, l, lp), rest)
    ensures Concat(TierParts(t, d, l, lp)) == TierText(t, d, l, lp)
    ensures Groups([OneOf(alts)] + NumberedTail(captured), TierParts(t, d, l, lp))
            == if captured then [t, d, l] else [t, l]
  {
    var f := [" ", d] + [" ", l, "", lp];
    NumberedTailFitted(captured, d, l, lp, rest);
    TierNameFitted(alts, ops, j, t, NumberedTail(captured), f, rest);
    TierPartsSplit(t, d, l, lp);
    TierConcat(t, d, l, lp);
    assert [t] + ((if captured then [d] else []) + [l]) == if captured then [t, d, l] else [t, l];
  }

  lemma TierConcat(t: string, d: string, l: string, lp: string)
    requires Concat([" ", d] + [" ", l, "", lp]) == " " + d + (" " + l + lp)
    ensures Concat(TierParts(t, d, l, lp)) == TierText(t, d, l, lp)
  {
    TierPartsSplit(t, d, l, lp);
    ConcatAppend([t], [" ", d] + [" ", l, "", lp]);
    assert Concat([t]) == t;
  }

  /** The parts of a duplicated-division text fit the duplicated pattern; the
      tier name, the first number and the LP are its groups. */
  lemma DuplicatedFitted(j: nat, t: string, d: string, n: string, l: string, lp: string, rest: string)
    requires j < |DivisionTiers| && SameLetters(t, DivisionTiers[j])
    requires Digits(d) && Digits(n) && Digits(l) && LpMark(lp)
    ensures Fitted(DuplicatedPattern, DuplicatedParts(t, d, n, l, lp), rest)
    ensures Concat(DuplicatedParts(t, d, n, l, lp)) == DuplicatedText(t, d, n, l, lp)
    ensures Groups(DuplicatedPattern, DuplicatedParts(t, d, n, l, lp)) == [t, d, l]
  {
    var g := [" ", n] + [" ", l, "", lp];
    var q := [Run(Space, true, false), Run(Digit, true, true)] + NumberedTail(false);
    DuplicatedTailFitted(d, n, l, lp, rest);
    DivisionOpeningsOf();
    DivisionOpeningsDistinct();
    TierNameFitted(DivisionTiers, DivisionOpenings, j, t, q, [" ", d] + g, rest);
    DuplicatedPatternSplit();
    DuplicatedPartsSplit(t, d, n, l, lp);
    DuplicatedConcat(t, d, n, l, lp);
  }

  /** The division digit, then the repeated number and the LP, fit the part of
      the duplicated-tier pattern after the tier name. */
  lemma DuplicatedTailFitted(d: string, n: string, l: string, lp: string, rest: string)
    requires Digits(d) && Digits(n) && Digits(l) && LpMark(lp)
    ensures Fitted([Run(Space, true, false), Run(Digit, true, true)] + NumberedTail(false),
                   [" ", d] + ([" ", n] + [" ", l, "", lp]), rest)
    ensures Concat([" ", n] + [" ", l, "", lp]) == " " + n + (" " + l + lp)
    ensures Groups([Run(Space, true, false), Run(Digit, true, true)] + NumberedTail(false),
                   [" ", d] + ([" ", n] + [" ", l, "", lp])) == [d, l]
  {
    var g := [" ", n] + [" ", l, "", lp];
    NumberedTailFitted(false, n, l, lp, rest);
    assert Concat(g)[0] == ' ';
    SpacedDigitsFitted(true, d, NumberedTail(false), g, rest);
  }

  lemma DuplicatedConcat(t: string, d: string, n: string, l: string, lp: string)
    requires Concat([" ", n] + [" ", l, "", lp]) == " " + n + (" " + l + lp)
    ensures Concat(DuplicatedParts(t, d, n, l, lp)) == DuplicatedText(t, d, n, l, lp)
  {
    var g := [" ", n] + [" ", l, "", lp];
    DuplicatedPartsSplit(t, d, n, l, lp);
    ConcatAppend([t, " ", d], g);
    assert [t] + ([" ", d] + g) == [t, " ", d] + g;
    assert Concat([d]) == d;
    assert Concat([" ", d]) == " " + d;
    assert Concat([t, " ", d]) == t + (" " + d);
  }

  /** When the `k`-th tier pattern is the first to occur, its groups decide
      the standing. */
  lemma StandingOfFirst(s: string, k: nat, g: seq<string>)
    requires k < |TierPatterns| && Search(TierPatterns[k], s, 0).Some?
    requires Search(TierPatterns[k], s, 0).value.hit.groups == g
    requires forall m :: 0 <= m < k ==> Search(TierPatterns[m], s, 0).None?
    ensures |g| >= 2 && (Lower(g[0]) !in ApexNames ==> |g| >= 3)
    ensures StandingFrom(s, 0) == Some(StandingOf(g))
  {
    SkipTiers(s, 0, k);
    TierGroups(k, s);
  }

  lemma TierPatternsAre()
    ensures TierPatterns[0] == ApexPattern && TierPatterns[1] == DuplicatedPattern && TierPatterns[2] == SimplePattern
  {
  }

  lemma ApexFirst(s: string, g: seq<string>)
    requires Search(ApexPattern, s, 0).Some? && Search(ApexPattern, s, 0).value.hit.groups == g
    ensures |g| >= 2 && (Lower(g[0]) !in ApexNames ==> |g| >= 3)
    ensures StandingFrom(s, 0) == Some(StandingOf(g))
  {
    TierPatternsAre();
    StandingOfFirst(s, 0, g);
  }

  lemma DuplicatedFirst(s: string, g: seq<string>)
    requires Search(ApexPattern, s, 0).None?
    requires Search(DuplicatedPattern, s, 0).Some? && Search(DuplicatedPattern, s, 0).value.hit.groups == g
    ensures |g| >= 2 && (Lower(g[0]) !in ApexNames ==> |g| >= 3)
    ensures StandingFrom(s, 0) == Some(StandingOf(g))
  {
    TierPatternsAre();
    forall m | 0 <= m < 1
      ensures Search(TierPatterns[m], s, 0).None?
    {
      assert m == 0;
    }
    StandingOfFirst(s, 1, g);
  }

  lemma SimpleFirst(s: string, g: seq<string>)
    requires Search(ApexPattern, s, 0).None? && Search(DuplicatedPattern, s, 0).None?
    requires Search(SimplePattern, s, 0).Some? && Search(SimplePattern, s, 0).value.hit.groups == g
    ensures |g| >= 2 && (Lower(g[0]) !in ApexNames ==> |g| >= 3)
    ensures StandingFrom(s, 0) == Some(StandingOf(g))
  {
    TierPatternsAre();
    forall m | 0 <= m < 2
      ensures Search(TierPatterns[m], s, 0).None?
    {
      assert m == 0 || m == 1;
    }
    StandingOfFirst(s, 2, g);
  }

  lemma ApexStanding(t: string, tier: string, l: string)
    requires tier in ApexTiers && SameLetters(t, tier)
    ensures Lower(t) in ApexNames && StandingOf([t, l]) == Standing(tier, tier, NatValue(l))
  {
    ApexTierNames();
    TitleOfLowerIsCapitalized(t, tier);
  }

  lemma DivisionStanding(t: string, tier: string, d: string, l: string)
    requires tier in DivisionTiers && SameLetters(t, tier)
    ensures StandingOf([t, d, l]) == Standing(tier, tier + " " + d, NatValue(l))
  {
    DivisionTierNames();
    TitleOfLowerIsCapitalized(t, tier);
  }

  /** Round trip for apex tiers: after a prefix where the apex pattern does
      not match, an apex tier text yields the tier in the pattern's spelling,
      ranked as itself, with the number before "LP" as LP. */
  lemma ApexRoundTrip(pre: string, t: string, tier: string, n: string, l: string, lp: string, rest: string)
    requires tier in ApexTiers && SameLetters(t, tier) && Digits(n) && Digits(l) && LpMark(lp)
    requires forall k :: 0 <= k < |pre| ==> MatchAt(ApexPattern, pre + TierText(t, n, l, lp) + rest, k).None?
    ensures StandingFrom(pre + TierText(t, n, l, lp) + rest, 0) == Some(Standing(tier, tier, NatValue(l)))
  {
    var s := pre + TierText(t, n, l, lp) + rest;
    var j :| 0 <= j < |ApexTiers| && ApexTiers[j] == tier;
    ApexOpeningsOf();
    TierFitted(ApexTiers, ApexOpenings, false, j, t, n, l, lp, rest);
    ApexPatternSplit();
    SearchOfRendering(ApexPattern, TierParts(t, n, l, lp), pre, rest);
    ApexFirst(s, [t, l]);
    ApexStanding(t, tier, l);
  }

  /** Round trip for a division tier with its division written twice: when
      the apex pattern does not occur, and after a prefix where the
      duplicated pattern does not match, the text yields the tier in the
      pattern's spelling, ranked with the first number, with the number
      before "LP" as LP. */
  lemma DuplicatedRoundTrip(pre: string, t: string, tier: string, d: string, n: string, l: string, lp: string,
                            rest: string)
    requires tier in DivisionTiers && SameLetters(t, tier) && Digits(d) && Digits(n) && Digits(l) && LpMark(lp)
    requires Search(ApexPattern, pre + DuplicatedText(t, d, n, l, lp) + rest, 0).None?
    requires forall k :: 0 <= k < |pre| ==> MatchAt(DuplicatedPattern, pre + DuplicatedText(t, d, n, l, lp) + rest, k).None?
    ensures StandingFrom(pre + DuplicatedText(t, d, n, l, lp) + rest, 0) == Some(Standing(tier, tier + " " + d, NatValue(l)))
  {
    var s := pre + DuplicatedText(t, d, n, l, lp) + rest;
    var j :| 0 <= j < |DivisionTiers| && DivisionTiers[j] == tier;
    var parts := DuplicatedParts(t, d, n, l, lp);
    DuplicatedFitted(j, t, d, n, l, lp, rest);
    assert Search(DuplicatedPattern, s, 0).Some? && Search(DuplicatedPattern, s, 0).value.hit.groups == [t, d, l] by {
      SearchOfRendering(DuplicatedPattern, parts, pre, rest);
      assert pre + Concat(parts) + rest == s;
    }
    DuplicatedFirst(s, [t, d, l]);
    DivisionStanding(t, tier, d, l);
  }

  /** Round trip for a division tier written once: when neither the apex nor
      the duplicated pattern occurs, and after a prefix where the simple
      pattern does not match, the text yields the tier ranked with its
      division and the number before "LP" as LP. */
  lemma SimpleRoundTrip(pre: string, t: string, tier: string, d: string, l: string, lp: string, rest: string)
    requires tier in DivisionTiers && SameLetters(t, tier) && Digits(d) && Digits(l) && LpMark(lp)
    requires Search(ApexPattern, pre + TierText(t, d, l, lp) + rest, 0).None?
    requires Search(DuplicatedPattern, pre + TierText(t, d, l, lp) + rest, 0).None?
    requires forall k :: 0 <= k < |pre| ==> MatchAt(SimplePattern, pre + TierText(t, d, l, lp) + rest, k).None?
    ensures StandingFrom(pre + TierText(t, d, l, lp) + rest, 0) == Some(Standing(tier, tier + " " + d, NatValue(l)))
  {
    var s := pre + TierText(t, d, l, lp) + rest;
    var j :| 0 <= j < |DivisionTiers| && DivisionTiers[j] == tier;
    DivisionOpeningsOf();
    DivisionOpeningsDistinct();
    var parts := TierParts(t, d, l, lp);
    TierFitted(DivisionTiers, DivisionOpenings, true, j, t, d, l, lp, rest);
    SimplePatternSplit();
    assert Search(SimplePattern, s, 0).Some? && Search(SimplePattern, s, 0).value.hit.groups == [t, d, l] by {
      SearchOfRendering(SimplePattern, parts, pre, rest);
      assert pre + Concat(parts) + rest == s;
    }
    SimpleFirst(s, [t, d, l]);
    DivisionStanding(t, tier, d, l);
  }

  // ---------------------------------------------------------------------------
  // The worked examples, on their full text
  // ---------------------------------------------------------------------------

  lemma FigurePrefixPairs()
    ensures AvoidsFrom("Figure09#1893 / ", ApexOpenings, 0)
    ensures AvoidsFrom("Figure09#1893 / ", DivisionOpenings, 0)
  {
    FigureAvoidsApex();
    FigureAvoidsDivision();
  }

  lemma FigureAvoidsApex()
    ensures AvoidsFrom("Figure09#1893 / ", ApexOpenings, 0)
  {
    assert AvoidsFrom("Figure09", [('m', 'a'), ('g', 'r'), ('c', 'h')], 0);
    assert AvoidsFrom("#1893 / ", [('m', 'a'), ('g', 'r'), ('c', 'h')], 0);
    AvoidsJoin("Figure09", "#1893 / ", ApexOpenings, 0);
    assert "Figure09" + "#1893 / " == "Figure09#1893 / ";
  }

  lemma FigureAvoidsDivision()
    ensures AvoidsFrom("Figure09#1893 / ", DivisionOpenings, 0)
  {
    FigureWordAvoidsDivision();
    assert AvoidsFrom("#1893 / ", DivisionOpenings, 0) by {
      assert AvoidsFrom("#1893 / ", [('i', 'r'), ('b', 'r'), ('s', 'i'), ('g', 'o'), ('p', 'l'), ('d', 'i'), ('e', 'm')], 0);
    }
    AvoidsJoin("Figure09", "#1893 / ", DivisionOpenings, 0);
    assert "Figure09" + "#1893 / " == "Figure09#1893 / ";
  }

  lemma FigureWordAvoidsDivision()
    ensures AvoidsFrom("Figure09", DivisionOpenings, 0)
  {
    assert AvoidsFrom("Figure09", [('i', 'r'), ('b', 'r'), ('s', 'i'), ('g', 'o'), ('p', 'l'), ('d', 'i'), ('e', 'm')], 0);
  }

  /** A division tier name followed by a tail that avoids the apex openings
      and starts with a space avoids them as well. */
  lemma DivisionWordAvoidsApex(t: string, x: string)
    requires t in DivisionTiers && AvoidsFrom(x, ApexOpenings, 0) && x != [] && x[0] == ' '
    ensures AvoidsFrom(t + x, ApexOpenings, 0)
  {
    TierWordPairs(t);
    assert LowerChar(x[0]) == ' ';
    AvoidsJoin(t, x, ApexOpenings, 0);
  }

  /** A division tier written twice after a prefix in which no tier name
      opens, and with no apex opening anywhere, is found by the duplicated
      pattern. */
  lemma DuplicatedAfterPlainPrefix(pre: string, t: string, d: string, n: string, l: string)
    requires t in DivisionTiers && Digits(d) && Digits(n) && Digits(l)
    requires AvoidsFrom(pre + DuplicatedText(t, d, n, l, "LP"), ApexOpenings, 0)
    requires AvoidsFrom(pre, DivisionOpenings, 0)
    requires pre != [] ==> (LowerChar(pre[|pre| - 1]), LowerChar(t[0])) !in DivisionOpenings
    ensures StandingFrom(pre + DuplicatedText(t, d, n, l, "LP"), 0) == Some(Standing(t, t + " " + d, NatValue(l)))
  {
    var u := DuplicatedText(t, d, n, l, "LP");
    assert pre + u + "" == pre + u;
    ApexOpeningsOf();
    Absent(ApexPattern, ApexOpenings, pre + u);
    DivisionOpeningsOf();
    assert u[0] == t[0] by { DivisionTierNames(); }
    AbsentBefore(DuplicatedPattern, DivisionOpenings, pre, u);
    assert LpMark("LP") by { assert "LP" == "LP"; }
    DuplicatedRoundTrip(pre, t, t, d, n, l, "LP", "");
  }

  /** The Platinum example text holds no opening of an apex tier name. */
  lemma PlatinumAvoidsApex()
    ensures AvoidsFrom("Figure09#1893 / " + DuplicatedText("Platinum", "1", "1", "39", "LP"), ApexOpenings, 0)
  {
    var pre := "Figure09#1893 / ";
    var x := " 1 1 39LP";
    FigurePrefixPairs();
    assert AvoidsFrom(x, ApexOpenings, 0) by {
      assert AvoidsFrom(" 1 1 39LP", [('m', 'a'), ('g', 'r'), ('c', 'h')], 0);
    }
    DivisionWordAvoidsApex("Platinum", x);
    AvoidsJoin(pre, "Platinum" + x, ApexOpenings, 0);
    assert DuplicatedText("Platinum", "1", "1", "39", "LP") == "Platinum" + x;
  }

  lemma PlatinumText()
    ensures "Figure09#1893 / " + DuplicatedText("Platinum", "1", "1", "39", "LP") == "Figure09#1893 / Platinum 1 1 39LP"
    ensures "Platinum" + " " + "1" == "Platinum 1" && NatValue("39") == 39
  {
  }

  /** "Figure09#1893 / Platinum 1 1 39LP": the duplicated pattern finds
      Platinum, ranked "Platinum 1", with 39 LP. */
  lemma PlatinumExample()
    ensures StandingFrom("Figure09#1893 / Platinum 1 1 39LP", 0) == Some(Standing("Platinum", "Platinum 1", 39))
  {
    var s := "Figure09#1893 / " + DuplicatedText("Platinum", "1", "1", "39", "LP");
    assert StandingFrom(s, 0) == Some(Standing("Platinum", "Platinum" + " " + "1", NatValue("39"))) by {
      PlatinumAvoidsApex();
      FigurePrefixPairs();
      assert "Platinum" in DivisionTiers by { DivisionTierNames(); }
      DuplicatedAfterPlainPrefix("Figure09#1893 / ", "Platinum", "1", "1", "39");
    }
    PlatinumText();
  }

  /** An apex tier after a prefix in which no apex tier name opens is found
      by the apex pattern, ranked as itself. */
  lemma ApexAfterPlainPrefix(pre: string, t: string, n: string, l: string)
    requires t in ApexTiers && Digits(n) && Digits(l)
    requires AvoidsFrom(pre, ApexOpenings, 0)
    requires pre != [] ==> (LowerChar(pre[|pre| - 1]), LowerChar(t[0])) !in ApexOpenings
    ensures StandingFrom(pre + TierText(t, n, l, "LP"), 0) == Some(Standing(t, t, NatValue(l)))
  {
    var u := TierText(t, n, l, "LP");
    assert pre + u + "" == pre + u;
    ApexOpeningsOf();
    assert u[0] == t[0];
    AbsentBefore(ApexPattern, ApexOpenings, pre, u);
    assert LpMark("LP") by { assert "LP" == "LP"; }
    ApexRoundTrip(pre, t, t, n, l, "LP", "");
  }

  lemma ClickPrefixPairs()
    ensures AvoidsFrom("cl1ck9r#EUWES / ", ApexOpenings, 0)
  {
    assert AvoidsFrom("cl1ck9r#", [('m', 'a'), ('g', 'r'), ('c', 'h')], 0);
    assert AvoidsFrom("EUWES / ", [('m', 'a'), ('g', 'r'), ('c', 'h')], 0);
    AvoidsJoin("cl1ck9r#", "EUWES / ", ApexOpenings, 0);
    assert "cl1ck9r#" + "EUWES / " == "cl1ck9r#EUWES / ";
  }

  lemma MasterText()
    ensures "cl1ck9r#EUWES / " + TierText("Master", "1", "47", "LP") == "cl1ck9r#EUWES / Master 1 47LP"
    ensures NatValue("47") == 47
  {
  }

  /** "cl1ck9r#EUWES / Master 1 47LP": the apex pattern finds Master, ranked
      as itself, with 47 LP. */
  lemma MasterExample()
    ensures StandingFrom("cl1ck9r#EUWES / Master 1 47LP", 0) == Some(Standing("Master", "Master", 47))
  {
    var s := "cl1ck9r#EUWES / " + TierText("Master", "1", "47", "LP");
    assert StandingFrom(s, 0) == Some(Standing("Master", "Master", NatValue("47"))) by {
      ClickPrefixPairs();
      assert "Master" in ApexTiers;
      ApexAfterPlainPrefix("cl1ck9r#EUWES / ", "Master", "1", "47");
    }
    MasterText();
  }

  // ---------------------------------------------------------------------------
  // Wins and losses
  // ---------------------------------------------------------------------------

  /** The overall record as the description writes it: "25Win 20Lose". */
  function WinLossText(w: string, l: string): string {
    w + "Win " + l + "Lose"
  }

  function WinLossParts(w: string, l: string): seq<string> {
    [w, "Win", " ", l, "Lose"]
  }

  /** "Win", a space, the losses and "Lose" fit the end of the win/loss
      pattern. */
  lemma WinTailFitted(l: string, rest: string)
    requires Digits(l)
    ensures Fitted(WinLossPattern[1..], ["Win", " ", l, "Lose"], rest)
  {
    var q2, f2 := [Run(Digit, true, true), Lit("Lose")], [l, "Lose"];
    assert Fitted(q2, f2, rest) && Concat(f2) == l + "Lose" by {
      FittedCons(Lit("Lose"), [], "Lose", [], rest);
      FittedCons(Run(Digit, true, true), [Lit("Lose")], l, ["Lose"], rest);
    }
    assert (Concat(f2) + rest)[0] == l[0];
    FittedCons(Run(Space, true, false), q2, " ", f2, rest);
    FittedCons(Lit("Win"), [Run(Space, true, false)] + q2, "Win", [" "] + f2, rest);
    assert [Lit("Win"), Run(Space, true, false)] + q2 == WinLossPattern[1..];
  }

  /** The parts of a record text fit the win/loss pattern. */
  lemma WinLossFitted(w: string, l: string, rest: string)
    requires Digits(w) && Digits(l)
    ensures Fitted(WinLossPattern, WinLossParts(w, l), rest)
  {
    var f := ["Win", " ", l, "Lose"];
    WinTailFitted(l, rest);
    assert Concat(f) == "Win" + Concat(f[1..]);
    assert (Concat(f) + rest)[0] == 'W';
    FittedCons(Run(Digit, true, true), WinLossPattern[1..], w, f, rest);
    assert [Run(Digit, true, true)] + WinLossPattern[1..] == WinLossPattern;
  }

  /** The parts of a record text spell it, and its two numbers are the
      groups. */
  lemma WinLossShape(w: string, l: string)
    ensures Concat(WinLossParts(w, l)) == WinLossText(w, l)
    ensures Groups(WinLossPattern, WinLossParts(w, l)) == [w, l]
  {
    WinLossConcat(w, l);
    WinLossGroups(w, l);
  }

  lemma WinLossConcat(w: string, l: string)
    ensures Concat(WinLossParts(w, l)) == WinLossText(w, l)
  {
    var parts, t := WinLossParts(w, l), l + "Lose";
    assert Concat(parts[3..]) == t by {
      ConcatStep(parts, 4);
      ConcatStep(parts, 3);
      assert parts[5..] == [];
    }
    assert Concat(parts) == w + ("Win " + t) by {
      ConcatStep(parts, 2);
      ConcatStep(parts, 1);
      ConcatStep(parts, 0);
      assert parts[0..] == parts;
      PrefixJoin("Win", " ", t);
    }
    PrefixJoin(w, "Win ", t);
    PrefixJoin(w + "Win ", l, "Lose");
  }

  lemma WinLossGroups(w: string, l: string)
    ensures Groups(WinLossPattern, WinLossParts(w, l)) == [w, l]
  {
    var ps, parts := WinLossPattern, WinLossParts(w, l);
    GroupsNone(ps, parts);
    GroupsSkip(ps, parts, 4, []);
    GroupsTake(ps, parts, 3, []);
    GroupsSkip(ps, parts, 2, [l]);
    GroupsSkip(ps, parts, 1, [l]);
    GroupsTake(ps, parts, 0, [l]);
    assert ps[0..] == ps && parts[0..] == parts;
  }

  /** The win/loss pattern cannot start at a character that is not a digit. */
  lemma WinLossNeedsDigit(s: string, k: nat)
    requires k < |s| && !IsDigit(s[k])
    ensures MatchAt(WinLossPattern, s, k).None?
  {
    assert RunEnd(s, k, Digit) == k;
  }

  /** No digit of `t` is directly followed by a 'W': no "NWin" starts in it. */
  predicate NoDigitThenW(t: string) {
    forall k :: 0 <= k < |t| - 1 && IsDigit(t[k]) ==> t[k + 1] != 'W'
  }

  /** Round trip for the overall record: after text where no digit is
      followed by a 'W' and that does not end in a digit (a riot id such as
      "cl1ck9r#EUWES / " and the tier line), the first "NWin NLose" is read
      back exactly. */
  lemma WinLossRoundTrip(pre: string, w: string, l: string, rest: string)
    requires Digits(w) && Digits(l)
    requires NoDigitThenW(pre) && (pre != [] ==> !IsDigit(pre[|pre| - 1]))
    ensures RecordOf(pre + WinLossText(w, l) + rest) == Some(Record(NatValue(w), NatValue(l)))
  {
    var s := pre + WinLossText(w, l) + rest;
    WinLossFitted(w, l, rest);
    WinLossShape(w, l);
    forall k | 0 <= k < |pre|
      ensures MatchAt(WinLossPattern, s, k).None?
    {
      WinLossAbsentAt(pre, s, k);
    }
    SearchOfRendering(WinLossPattern, WinLossParts(w, l), pre, rest);
    WinLossCaptures();
  }

  /** No win/loss match starts inside such a prefix: its digits stop before
      the prefix ends, at a character that is not 'W'. */
  lemma WinLossAbsentAt(pre: string, s: string, k: nat)
    requires k < |pre| <= |s| && s[..|pre|] == pre
    requires NoDigitThenW(pre) && !IsDigit(pre[|pre| - 1])
    ensures MatchAt(WinLossPattern, s, k).None?
  {
    assert forall m :: 0 <= m < |pre| ==> s[m] == pre[m];
    if IsDigit(s[k]) {
      var j := RunEnd(s, k, Digit);
      assert j < |pre|;
      assert IsDigit(pre[j - 1]);
      assert s[j] != 'W';
      var h := Step(Run(Digit, true, true), s, k).value;
      assert h.end == j;
      assert WinLossPattern[1..][0] == Lit("Win");
      assert Step(Lit("Win"), s, j).None? by {
        if j + 3 <= |s| {
          assert s[j..j + 3][0] == s[j];
        }
      }
      assert MatchAt(WinLossPattern[1..], s, j).None?;
    } else {
      WinLossNeedsDigit(s, k);
    }
  }

  lemma WinLossExampleText()
    ensures "" + WinLossText("31", "32") + "" == "31Win 32Lose"
    ensures NatValue("31") == 31 && NatValue("32") == 32
  {
  }

  /** "31Win 32Lose": 31 wins and 32 losses. */
  lemma WinLossExample()
    ensures RecordOf("31Win 32Lose") == Some(Record(31, 32))
  {
    var s := "" + WinLossText("31", "32") + "";
    assert RecordOf(s) == Some(Record(NatValue("31"), NatValue("32"))) by {
      WinLossRoundTrip("", "31", "32", "");
    }
    WinLossExampleText();
  }

  /** The record after the Master line of lol_scraper.py:332, riot id
      first: "cl1ck9r#EUWES / Master 1 47LP / 31Win 32Lose" has 31 wins and
      32 losses, although the tag holds a 'W'. */
  lemma MasterRecordExample()
    ensures RecordOf("cl1ck9r#EUWES / Master 1 47LP / 31Win 32Lose") == Some(Record(31, 32))
  {
    var pre := "cl1ck9r#EUWES / Master 1 47LP / ";
    var s := pre + WinLossText("31", "32") + "";
    assert RecordOf(s) == Some(Record(NatValue("31"), NatValue("32"))) by {
      MasterPrefixNoRecord();
      WinLossRoundTrip(pre, "31", "32", "");
    }
    WinLossExampleText();
    MasterRecordText();
  }

  lemma MasterPrefixNoRecord()
    ensures NoDigitThenW("cl1ck9r#EUWES / Master 1 47LP / ")
    ensures !IsDigit("cl1ck9r#EUWES / Master 1 47LP / "[31])
  {
  }

  lemma MasterRecordText()
    ensures "cl1ck9r#EUWES / Master 1 47LP / " + WinLossText("31", "32") + ""
            == "cl1ck9r#EUWES / Master 1 47LP / 31Win 32Lose"
  {
  }

  // ---------------------------------------------------------------------------
  // Champion clauses
  // ---------------------------------------------------------------------------

  /** One part off the front of a rendering: its text ... */
  lemma ConcatStep(parts: seq<string>, k: nat)
    requires k < |parts|
    ensures Concat(parts[k..]) == parts[k] + Concat(parts[k + 1..])
  {
    assert parts[k..][1..] == parts[k + 1..];
  }

  /** A part that fits its piece in front of fitted parts ... */
  lemma FittedStep(ps: seq<Piece>, parts: seq<string>, k: nat, rest: string)
    requires |ps| == |parts| && k < |ps|
    requires Fits(ps[k], parts[k], Concat(parts[k + 1..]) + rest) && Fitted(ps[k + 1..], parts[k + 1..], rest)
    ensures Fitted(ps[k..], parts[k..], rest)
  {
    assert ps[k..][1..] == ps[k + 1..] && parts[k..][1..] == parts[k + 1..];
  }

  /** ... starting from no parts at all. */
  lemma FittedNone(ps: seq<Piece>, parts: seq<string>, rest: string)
    requires |ps| == |parts|
    ensures Fitted(ps[|ps|..], parts[|parts|..], rest)
  {
    assert ps[|ps|..] == [];
  }

  /** A part whose piece captures nothing adds no group ... */
  lemma GroupsSkip(ps: seq<Piece>, parts: seq<string>, k: nat, g: seq<string>)
    requires |ps| == |parts| && k < |ps| && Group(ps[k], parts[k]) == []
    requires Groups(ps[k + 1..], parts[k + 1..]) == g
    ensures Groups(ps[k..], parts[k..]) == g
  {
    assert ps[k..][1..] == ps[k + 1..] && parts[k..][1..] == parts[k + 1..];
  }

  /** ... and one whose piece captures adds its text as the next group. */
  lemma GroupsTake(ps: seq<Piece>, parts: seq<string>, k: nat, g: seq<string>)
    requires |ps| == |parts| && k < |ps| && Group(ps[k], parts[k]) == [parts[k]]
    requires Groups(ps[k + 1..], parts[k + 1..]) == g
    ensures Groups(ps[k..], parts[k..]) == [parts[k]] + g
  {
    assert ps[k..][1..] == ps[k + 1..] && parts[k..][1..] == parts[k + 1..];
  }

  lemma GroupsNone(ps: seq<Piece>, parts: seq<string>)
    requires |ps| == |parts|
    ensures Groups(ps[|ps|..], parts[|parts|..]) == []
  {
    assert ps[|ps|..] == [];
  }

  /** Text the champion-name run takes in full: name characters only, the
      name and the whitespace around it. */
  predicate NameRun(name: string) {
    name != [] && forall k :: 0 <= k < |name| ==> InClass(NameChar, name[k])
  }

  /** A champion clause as the description writes it, after the text of the
      name run: "Urgot " + "- 31Win 32Lose Win rate 49%". */
  function ClauseText(name: string, w: string, l: string, r: string): string {
    name + "- " + WinLossText(w, l) + " Win rate " + r + "%"
  }

  function NameParts(name: string): seq<string> {
    [name, "", "-", " "]
  }

  function RateParts(r: string): seq<string> {
    [" ", "Win", " ", "rate", " ", r, "%"]
  }

  function ClauseParts(name: string, w: string, l: string, r: string): seq<string> {
    NameParts(name) + (WinLossParts(w, l) + RateParts(r))
  }

  /** The name run, the dash and the space after it fit the start of the
      champion pattern when a number follows. */
  lemma NameFitted(name: string, next: string)
    requires NameRun(name) && next != [] && IsDigit(next[0])
    ensures Fitted(ChampionName, NameParts(name), next)
  {
    DashFitted(next);
    assert Concat(["", "-", " "]) + next == "- " + next;
    FittedCons(Run(NameChar, true, true), ChampionName[1..], name, ["", "-", " "], next);
    assert [Run(NameChar, true, true)] + ChampionName[1..] == ChampionName;
  }

  /** The optional spaces, the dash and the space after the name. */
  lemma DashFitted(next: string)
    requires next != [] && IsDigit(next[0])
    ensures Fitted(ChampionName[1..], ["", "-", " "], next)
  {
    var sp := Run(Space, false, false);
    DashSpaceFitted(next);
    assert Concat(["-", " "]) + next == "- " + next;
    FittedCons(sp, [Lit("-"), sp], "", ["-", " "], next);
    assert [sp, Lit("-"), sp] == ChampionName[1..];
  }

  /** The dash and the space after it. */
  lemma DashSpaceFitted(next: string)
    requires next != [] && IsDigit(next[0])
    ensures Fitted([Lit("-"), Run(Space, false, false)], ["-", " "], next)
  {
    var sp := Run(Space, false, false);
    FittedCons(sp, [], " ", [], next);
    assert Concat([" "]) + next == " " + next;
    FittedCons(Lit("-"), [sp], "-", [" "], next);
  }

  /** The name parts spell the name, the dash and the space, and the name
      run is the one group they capture. */
  lemma NameShape(name: string)
    ensures Concat(NameParts(name)) == name + "- "
    ensures Groups(ChampionName, NameParts(name)) == [name]
  {
    var ps, parts := ChampionName, NameParts(name);
    assert Concat(parts[3..]) == " " by {
      assert parts[3..][1..] == [];
    }
    assert Concat(parts[2..]) == "- " by {
      assert parts[2..][1..] == parts[3..];
    }
    assert parts[1..][1..] == parts[2..];
    assert Groups(ps[3..], parts[3..]) == [] by {
      assert ps[3..][1..] == [] && parts[3..][1..] == [];
    }
    assert Groups(ps[2..], parts[2..]) == [] by {
      assert ps[2..][1..] == ps[3..] && parts[2..][1..] == parts[3..];
    }
    assert Groups(ps[1..], parts[1..]) == [] by {
      assert ps[1..][1..] == ps[2..] && parts[1..][1..] == parts[2..];
    }
  }

  /** " Win rate N%" fits the end of the champion pattern. */
  lemma RateFitted(r: string, rest: string)
    requires Digits(r)
    ensures Fitted(ChampionRate, RateParts(r), rest)
  {
    var ps, parts := ChampionRate, RateParts(r);
    RateWordsFitted(r, rest);
    ConcatStep(parts, 1);
    FittedStep(ps, parts, 0, rest);
    assert ps[0..] == ps && parts[0..] == parts;
  }

  /** "N%" fits the pattern's last two pieces. */
  lemma RateNumberFitted(r: string, rest: string)
    requires Digits(r)
    ensures Fitted(ChampionRate[5..], RateParts(r)[5..], rest)
  {
    var ps, parts := ChampionRate, RateParts(r);
    FittedNone(ps, parts, rest);
    FittedStep(ps, parts, 6, rest);
    ConcatStep(parts, 6);
    FittedStep(ps, parts, 5, rest);
  }

  /** "rate N%", after a space. */
  lemma RateWordFitted(r: string, rest: string)
    requires Digits(r)
    ensures Fitted(ChampionRate[3..], RateParts(r)[3..], rest)
  {
    var ps, parts := ChampionRate, RateParts(r);
    RateNumberFitted(r, rest);
    ConcatStep(parts, 5);
    FittedStep(ps, parts, 4, rest);
    FittedStep(ps, parts, 3, rest);
  }

  /** "Win rate N%", after a space. */
  lemma RateWordsFitted(r: string, rest: string)
    requires Digits(r)
    ensures Fitted(ChampionRate[1..], RateParts(r)[1..], rest)
  {
    var ps, parts := ChampionRate, RateParts(r);
    RateWordFitted(r, rest);
    ConcatStep(parts, 3);
    FittedStep(ps, parts, 2, rest);
    FittedStep(ps, parts, 1, rest);
  }

  /** The parts of " Win rate N%" spell it, and the rate is the one group. */
  lemma RateShape(r: string)
    ensures Concat(RateParts(r)) == " Win rate " + r + "%"
    ensures Groups(ChampionRate, RateParts(r)) == [r]
  {
    RateConcat(r);
    RateGroups(r);
  }

  lemma RateConcat(r: string)
    ensures Concat(RateParts(r)) == " Win rate " + r + "%"
  {
    var parts, t := RateParts(r), r + "%";
    RateTailConcat(r);
    ConcatStep(parts, 2);
    ConcatStep(parts, 1);
    ConcatStep(parts, 0);
    assert parts[0..] == parts;
    PrefixJoin(" ", "rate ", t);
    PrefixJoin("Win", " rate ", t);
    PrefixJoin(" ", "Win rate ", t);
    PrefixJoin(" Win rate ", r, "%");
  }

  lemma RateTailConcat(r: string)
    ensures Concat(RateParts(r)[3..]) == "rate " + (r + "%")
  {
    var parts, t := RateParts(r), r + "%";
    assert Concat(parts[5..]) == t by {
      ConcatStep(parts, 6);
      ConcatStep(parts, 5);
      assert parts[7..] == [];
    }
    ConcatStep(parts, 4);
    ConcatStep(parts, 3);
    PrefixJoin("rate", " ", t);
  }

  lemma RateGroups(r: string)
    ensures Groups(ChampionRate, RateParts(r)) == [r]
  {
    var ps, parts := ChampionRate, RateParts(r);
    GroupsNone(ps, parts);
    GroupsSkip(ps, parts, 6, []);
    GroupsTake(ps, parts, 5, []);
    GroupsSkip(ps, parts, 4, [r]);
    GroupsSkip(ps, parts, 3, [r]);
    GroupsSkip(ps, parts, 2, [r]);
    GroupsSkip(ps, parts, 1, [r]);
    GroupsSkip(ps, parts, 0, [r]);
    assert ps[0..] == ps && parts[0..] == parts;
  }

  /** Two pieces of text in front of a third, joined first. */
  lemma PrefixJoin(a: string, b: string, c: string)
    ensures a + (b + c) == (a + b) + c
  {
  }

  /** The record and the win rate of a clause fit the pattern's last two
      thirds. */
  lemma ClauseTailFitted(w: string, l: string, r: string, rest: string)
    requires Digits(w) && Digits(l) && Digits(r)
    ensures Fitted(WinLossPattern + ChampionRate, WinLossParts(w, l) + RateParts(r), rest)
  {
    RateFitted(r, rest);
    WinLossFitted(w, l, Concat(RateParts(r)) + rest);
    FittedAppend(WinLossPattern, WinLossParts(w, l), ChampionRate, RateParts(r), rest);
  }

  /** The parts of a champion clause fit the champion pattern; the name run
      and the three numbers are the groups. */
  lemma ClauseFitted(name: string, w: string, l: string, r: string, rest: string)
    requires NameRun(name) && Digits(w) && Digits(l) && Digits(r)
    ensures Fitted(ChampionPattern, ClauseParts(name, w, l, r), rest)
    ensures Concat(ClauseParts(name, w, l, r)) == ClauseText(name, w, l, r)
    ensures Groups(ChampionPattern, ClauseParts(name, w, l, r)) == [name, w, l, r]
  {
    ClausePartsFitted(name, w, l, r, rest);
    ClauseConcat(name, w, l, r);
    ClauseGroups(name, w, l, r);
  }

  lemma ClausePartsFitted(name: string, w: string, l: string, r: string, rest: string)
    requires NameRun(name) && Digits(w) && Digits(l) && Digits(r)
    ensures Fitted(ChampionPattern, ClauseParts(name, w, l, r), rest)
  {
    var tail := WinLossParts(w, l) + RateParts(r);
    ClauseTailFitted(w, l, r, rest);
    assert Concat(tail) == w + Concat(tail[1..]);
    assert (Concat(tail) + rest)[0] == w[0];
    NameFitted(name, Concat(tail) + rest);
    FittedAppend(ChampionName, NameParts(name), WinLossPattern + ChampionRate, tail, rest);
    PatternSplit();
  }

  lemma PatternSplit()
    ensures ChampionName + (WinLossPattern + ChampionRate) == ChampionPattern
  {
  }

  lemma ClauseConcat(name: string, w: string, l: string, r: string)
    ensures Concat(ClauseParts(name, w, l, r)) == ClauseText(name, w, l, r)
  {
    var a, b, c := name + "- ", WinLossText(w, l), " Win rate ";
    NameShape(name);
    WinLossShape(w, l);
    RateShape(r);
    ConcatAppend(WinLossParts(w, l), RateParts(r));
    ConcatAppend(NameParts(name), WinLossParts(w, l) + RateParts(r));
    PrefixJoin(a, b, (c + r) + "%");
    PrefixJoin(a + b, c + r, "%");
    PrefixJoin(a + b, c, r);
  }

  lemma ClauseGroups(name: string, w: string, l: string, r: string)
    ensures Groups(ChampionPattern, ClauseParts(name, w, l, r)) == [name, w, l, r]
  {
    NameShape(name);
    WinLossShape(w, l);
    RateShape(r);
    GroupsAppend(WinLossPattern, WinLossParts(w, l), ChampionRate, RateParts(r));
    GroupsAppend(ChampionName, NameParts(name), WinLossPattern + ChampionRate, WinLossParts(w, l) + RateParts(r));
    PatternSplit();
  }

  /** Round trip for a champion clause: after a prefix where the champion
      pattern matches nowhere, `re.findall` finds the clause first, with the
      name run and the three numbers as its groups, and goes on after it. */
  lemma ChampionRoundTrip(s: string, pre: string, name: string, w: string, l: string, r: string, rest: string)
      returns (end: nat)
    requires NameRun(name) && Digits(w) && Digits(l) && Digits(r)
    requires s == pre + ClauseText(name, w, l, r) + rest
    requires forall k :: 0 <= k < |pre| ==> MatchAt(ChampionPattern, s, k).None?
    ensures end == |pre| + |ClauseText(name, w, l, r)|
    ensures ChampionMatches(s) == [[name, w, l, r]] + FindAll(ChampionPattern, s, end)
  {
    ClauseFound(s, pre, name, w, l, r, rest);
    end := |pre| + |ClauseText(name, w, l, r)|;
    MatchesAfterFirst(s, end, [name, w, l, r]);
  }

  /** The champion matches of a text whose leftmost clause ends at `end`. */
  lemma MatchesAfterFirst(s: string, end: nat, g: seq<string>)
    requires Search(ChampionPattern, s, 0).Some? && Search(ChampionPattern, s, 0).value.start < end
    requires Search(ChampionPattern, s, 0).value.hit.end == end && Search(ChampionPattern, s, 0).value.hit.groups == g
    ensures ChampionMatches(s) == [g] + FindAll(ChampionPattern, s, end)
  {
    FindAllAfter(ChampionPattern, s, Search(ChampionPattern, s, 0).value.start, end, g);
  }

  /** ... the clause is the leftmost match. */
  lemma ClauseFound(s: string, pre: string, name: string, w: string, l: string, r: string, rest: string)
    requires NameRun(name) && Digits(w) && Digits(l) && Digits(r)
    requires s == pre + ClauseText(name, w, l, r) + rest
    requires forall k :: 0 <= k < |pre| ==> MatchAt(ChampionPattern, s, k).None?
    ensures Search(ChampionPattern, s, 0).Some? && Search(ChampionPattern, s, 0).value.start == |pre|
    ensures Search(ChampionPattern, s, 0).value.hit.end == |pre| + |ClauseText(name, w, l, r)|
    ensures Search(ChampionPattern, s, 0).value.hit.groups == [name, w, l, r]
  {
    ClauseFitted(name, w, l, r, rest);
    SearchOfRendering(ChampionPattern, ClauseParts(name, w, l, r), pre, rest);
  }

  /** `re.findall` from the start: the first match's groups, then the scan
      from where it ended. */
  lemma FindAllAfter(ps: seq<Piece>, s: string, start: nat, end: nat, g: seq<string>)
    requires Search(ps, s, 0).Some? && Search(ps, s, 0).value.start == start
    requires Search(ps, s, 0).value.hit.end == end && Search(ps, s, 0).value.hit.groups == g && start < end
    ensures FindAll(ps, s, 0) == [g] + FindAll(ps, s, end)
  {
    FindAllFirst(ps, s, 0);
  }

  /** No champion clause starts at the end of the text. */
  lemma NoChampionAtEnd(s: string)
    ensures FindAll(ChampionPattern, s, |s|) == []
  {
    assert RunEnd(s, |s|, NameChar) == |s|;
    assert MatchAt(ChampionPattern, s, |s|).None?;
  }

  /** `str.strip()` gives back a name that starts and ends with something
      other than whitespace, whatever whitespace surrounds it. */
  lemma StripPadded(a: string, n: string, b: string)
    requires forall k :: 0 <= k < |a| ==> IsSpace(a[k])
    requires forall k :: 0 <= k < |b| ==> IsSpace(b[k])
    requires n != [] && !IsSpace(n[0]) && !IsSpace(n[|n| - 1])
    ensures Strip(a + n + b) == n
  {
    var s := a + n + b;
    var r := Strip(s);
    var k := SpacesEnd(s, 0);
    assert s[|a|] == n[0];
    assert k == |a|;
    assert s[|a| + |n| - 1] == n[|n| - 1];
    assert |r| == |n|;
    assert r == s[|a|..|a| + |n|] == n;
  }

  lemma UrgotText()
    ensures "" + ClauseText("Urgot ", "31", "32", "49") + "" == "Urgot - 31Win 32Lose Win rate 49%"
    ensures "Urgot - " + WinLossText("31", "32") + " Win rate 49%" == "Urgot - 31Win 32Lose Win rate 49%"
    ensures NatValue("31") == 31 && NatValue("32") == 32 && NatValue("49") == 49
    ensures |"Urgot - 31Win 32Lose Win rate 49%"| == 33
  {
    UrgotClauseText();
    UrgotRecordText();
  }

  lemma UrgotClauseText()
    ensures "" + ClauseText("Urgot ", "31", "32", "49") + "" == "Urgot - 31Win 32Lose Win rate 49%"
  {
  }

  lemma UrgotRecordText()
    ensures "Urgot - " + WinLossText("31", "32") + " Win rate 49%" == "Urgot - 31Win 32Lose Win rate 49%"
  {
  }

  lemma UrgotName()
    ensures NameRun("Urgot ") && Strip("Urgot ") == "Urgot"
  {
    StripPadded("", "Urgot", " ");
    assert "" + "Urgot" + " " == "Urgot ";
  }

  /** "Urgot - 31Win 32Lose Win rate 49%": the clause is the one champion
      match, read as Urgot with 31 wins, 32 losses, 63 games and a 49% win
      rate; and with no overall record before it, its "31Win 32Lose" is taken
      for the player's record. */
  lemma UrgotExample(riotId: string)
    ensures ChampionMatches("Urgot - 31Win 32Lose Win rate 49%") == [["Urgot ", "31", "32", "49"]]
    ensures var d := Extracted("Urgot - 31Win 32Lose Win rate 49%", riotId);
            && d.mainChampions == [Champion("Urgot", 31, 32, 63, 49)]
            && d.wins == 31 && d.losses == 32 && d.totalGames == 63
  {
    UrgotMatches();
    UrgotRecord();
    UrgotName();
    UrgotText();
    assert ChampionsOf([["Urgot ", "31", "32", "49"]]) == [Champion("Urgot", 31, 32, 63, 49)];
  }

  lemma UrgotMatches()
    ensures ChampionMatches("Urgot - 31Win 32Lose Win rate 49%") == [["Urgot ", "31", "32", "49"]]
  {
    var s := "" + ClauseText("Urgot ", "31", "32", "49") + "";
    UrgotText();
    UrgotName();
    var end := ChampionRoundTrip(s, "", "Urgot ", "31", "32", "49", "");
    NoChampionAtEnd(s);
  }

  lemma UrgotRecord()
    ensures RecordOf("Urgot - 31Win 32Lose Win rate 49%") == Some(Record(31, 32))
  {
    UrgotText();
    WinLossRoundTrip("Urgot - ", "31", "32", " Win rate 49%");
  }
}
