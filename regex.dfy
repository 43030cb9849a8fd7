/** The fragment of Python's `re` module that the scraper uses: `re.search`
    (leftmost match) and `re.findall` (successive non-overlapping leftmost
    matches) over patterns written as a list of pieces.

    In the scraper's patterns a repeated class is mostly followed by something
    that class cannot match (`\d+` by `Win`, `\s+` by a digit, ...), so the
    greedy run is the only one that can lead to a match and backtracking never
    changes the result. The matcher below therefore consumes each run greedily
    and never backtracks. The two exceptions, the `[^"]+` runs of the lane key
    and the champion name run before `\s*-`, are explained at `Piece.HashKey`
    and at `Class.NameChar`. */
module Regex {
  import opened Options
  import opened Text

  /** The character classes that occur in the scraper's patterns. */
  datatype Class =
    | Digit     // \d
    | Space     // \s
    | NameChar  // [A-Za-z\'\.\s&]; it is followed by \s*- in the champion pattern,
                // and a shorter run can only hand whitespace to \s* before the
                // same '-', so the greedy run yields the same match and group
    | NotQuote  // [^"]
    | NotBrace  // [^}]
    | WordChar  // \w

  predicate InClass(k: Class, c: char) {
    match k
    case Digit => IsDigit(c)
    case Space => IsSpace(c)
    case NameChar => IsLetter(c) || c == '\'' || c == '.' || IsSpace(c) || c == '&'
    case NotQuote => c != '"'
    case NotBrace => c != '}'
    case WordChar => IsWordChar(c)
  }

  /** The end of the longest run of characters of class `k` that starts at
      `i`: what a greedy `[...]*` consumes. */
  function RunEnd(s: string, i: nat, k: Class): (j: nat)
    requires i <= |s|
    ensures i <= j <= |s|
    ensures forall m :: i <= m < j ==> InClass(k, s[m])
    ensures j == |s| || !InClass(k, s[j])
    decreases |s| - i
  {
    if i < |s| && InClass(k, s[i]) then RunEnd(s, i + 1, k) else i
  }

  /** A run that is known character by character is consumed exactly. */
  lemma {:induction false} RunEndOfRun(s: string, i: nat, run: string, k: Class)
    requires i + |run| <= |s| && s[i..i + |run|] == run
    requires forall m :: 0 <= m < |run| ==> InClass(k, run[m])
    requires i + |run| == |s| || !InClass(k, s[i + |run|])
    ensures RunEnd(s, i, k) == i + |run|
    decreases |run|
  {
    if run != [] {
      assert s[i] == run[0];
      assert s[i + 1..i + |run|] == run[1..];
      RunEndOfRun(s, i + 1, run[1..], k);
    }
  }

  datatype Piece =
    | Lit(text: string)                            // a literal, case-sensitive
    | NoCase(text: string)                         // a literal under re.IGNORECASE
    | OneOf(alts: seq<string>)                     // a captured (A|B|...) under re.IGNORECASE
    | Run(cls: Class, atLeastOne: bool, captured: bool)  // cls+ or cls*, perhaps captured
    | Opt(c: char)                                 // c?
    | HashKey                                      // "([^"]+#[^"]+)": a quoted text with a
                                                   // '#' that has a character on each side;
                                                   // whichever '#' backtracking settles on,
                                                   // the group is the whole quoted text

  /** The number of groups a piece captures. */
  function Captures(p: Piece): nat {
    match p
    case OneOf(_) => 1
    case Run(_, _, captured) => if captured then 1 else 0
    case HashKey => 1
    case _ => 0
  }

  /** The capturing pieces, in order: group `k` of a match comes from the
      `k`-th of them. */
  function Captured(ps: seq<Piece>): seq<Piece> {
    if ps == [] then [] else (if Captures(ps[0]) == 1 then [ps[0]] else []) + Captured(ps[1..])
  }

  /** The capturing pieces of a pattern: its first piece, if that captures,
      then those of the rest. */
  lemma CapturedOf(p: Piece, ps: seq<Piece>)
    ensures Captured([p] + ps) == (if Captures(p) == 1 then [p] else []) + Captured(ps)
  {
    assert ([p] + ps)[1..] == ps;
  }

  /** The groups of a pattern written as two halves are those of each half. */
  lemma {:induction false} CapturedAppend(a: seq<Piece>, b: seq<Piece>)
    ensures Captured(a + b) == Captured(a) + Captured(b)
    decreases |a|
  {
    if a != [] {
      assert (a + b)[1..] == a[1..] + b;
      CapturedAppend(a[1..], b);
    } else {
      assert a + b == b;
    }
  }

  /** Where a match of some pieces ends, and the groups it captured. */
  datatype Hit = Hit(end: nat, groups: seq<string>)

  /** The leftmost match: where it starts, and the hit. */
  datatype Found = Found(start: nat, hit: Hit)

  /** The index of the first alternative that `t` starts with, ignoring case. */
  function FirstAlt(alts: seq<string>, t: string): (r: Option<nat>)
    ensures r.Some? ==> r.value < |alts| && |alts[r.value]| <= |t|
                        && SameLetters(t[..|alts[r.value]|], alts[r.value])
  {
    if alts == [] then None
    else if |alts[0]| <= |t| && SameLetters(t[..|alts[0]|], alts[0]) then Some(0)
    else match FirstAlt(alts[1..], t)
      case None => None
      case Some(j) => Some(j + 1)
  }

  predicate HasInnerHash(t: string) {
    |t| >= 3 && '#' in t[1..|t| - 1]
  }

  /** One piece at position `i`. */
  function Step(p: Piece, s: string, i: nat): (r: Option<Hit>)
    requires i <= |s|
    ensures r.Some? ==> i <= r.value.end <= |s| && |r.value.groups| == Captures(p)
  {
    match p
    case Lit(t) =>
      if i + |t| <= |s| && s[i..i + |t|] == t then Some(Hit(i + |t|, [])) else None
    case NoCase(t) =>
      if i + |t| <= |s| && SameLetters(s[i..i + |t|], t) then Some(Hit(i + |t|, [])) else None
    case OneOf(alts) =>
      var j := FirstAlt(alts, s[i..]);
      if j.None? then None
      else Some(Hit(i + |alts[j.value]|, [s[i..i + |alts[j.value]|]]))
    case Run(cls, atLeastOne, captured) =>
      var j := RunEnd(s, i, cls);
      if atLeastOne && j == i then None
      else Some(Hit(j, if captured then [s[i..j]] else []))
    case Opt(c) =>
      if i < |s| && s[i] == c then Some(Hit(i + 1, [])) else Some(Hit(i, []))
    case HashKey =>
      if i < |s| && s[i] == '"' then
        var j := RunEnd(s, i + 1, NotQuote);
        if j < |s| && HasInnerHash(s[i + 1..j]) then Some(Hit(j + 1, [s[i + 1..j]])) else None
      else None
  }

  /** The pieces one after the other, starting at position `i`. */
  function MatchAt(ps: seq<Piece>, s: string, i: nat): (r: Option<Hit>)
    requires i <= |s|
    ensures r.Some? ==> i <= r.value.end <= |s| && |r.value.groups| == |Captured(ps)|
    decreases |ps|
  {
    if ps == [] then Some(Hit(i, []))
    else
      var h := Step(ps[0], s, i);
      if h.None? then None
      else
        var rest := MatchAt(ps[1..], s, h.value.end);
        if rest.None? then None
        else Some(Hit(rest.value.end, h.value.groups + rest.value.groups))
  }

  /** `re.search` from position `from`: the leftmost position where the
      pattern matches. */
  function Search(ps: seq<Piece>, s: string, from: nat): (r: Option<Found>)
    ensures r.Some? ==> from <= r.value.start <= |s|
                        && MatchAt(ps, s, r.value.start).Some?
                        && MatchAt(ps, s, r.value.start).value.end == r.value.hit.end
                        && MatchAt(ps, s, r.value.start).value.groups == r.value.hit.groups
                        && forall k :: from <= k < r.value.start ==> MatchAt(ps, s, k).None?
    ensures r.None? ==> forall k :: from <= k <= |s| ==> MatchAt(ps, s, k).None?
    decreases |s| + 1 - from
  {
    if from > |s| then None
    else
      var here := MatchAt(ps, s, from);
      if here.Some? then Some(Found(from, here.value))
      else
        var later := Search(ps, s, from + 1);
        NoMatchBefore(ps, s, from, later);
        later
  }

  /** A position without a match, followed by the leftmost match after it. */
  lemma NoMatchBefore(ps: seq<Piece>, s: string, from: nat, later: Option<Found>)
    requires from <= |s| && MatchAt(ps, s, from).None?
    requires later.Some? ==> from + 1 <= later.value.start <= |s|
                             && forall k :: from + 1 <= k < later.value.start ==> MatchAt(ps, s, k).None?
    requires later.None? ==> forall k :: from + 1 <= k <= |s| ==> MatchAt(ps, s, k).None?
    ensures later.Some? ==> forall k :: from <= k < later.value.start ==> MatchAt(ps, s, k).None?
    ensures later.None? ==> forall k :: from <= k <= |s| ==> MatchAt(ps, s, k).None?
  {
  }

  /** `re.findall` from position `from`: the groups of each successive
      non-overlapping leftmost match. None of the scraper's patterns can match
      the empty string; if one did, the scan would move on by one character. */
  function FindAll(ps: seq<Piece>, s: string, from: nat): (r: seq<seq<string>>)
    ensures forall m :: 0 <= m < |r| ==> |r[m]| == |Captured(ps)|
    ensures r == [] <==> Search(ps, s, from).None?
    decreases |s| + 1 - from
  {
    match Search(ps, s, from)
    case None => []
    case Some(f) =>
      var next := if f.hit.end > f.start then f.hit.end else f.start + 1;
      [f.hit.groups] + FindAll(ps, s, next)
  }

  // ---------------------------------------------------------------------------
  // Rendering: text built piece by piece is matched piece by piece
  // ---------------------------------------------------------------------------

  function Concat(parts: seq<string>): string {
    if parts == [] then [] else parts[0] + Concat(parts[1..])
  }

  /** `f` is text that piece `p` consumes entirely when `next` follows it: a
      literal exactly, a run of its class that the next character does not
      continue, and so on. */
  predicate Fits(p: Piece, f: string, next: string) {
    match p
    case Lit(t) => f == t
    case NoCase(t) => |f| == |t| && SameLetters(f, t)
    case OneOf(alts) =>
      var j := FirstAlt(alts, f + next);
      j.Some? && |alts[j.value]| == |f|
    case Run(cls, atLeastOne, _) =>
      && (atLeastOne ==> f != [])
      && (forall k :: 0 <= k < |f| ==> InClass(cls, f[k]))
      && (next == [] || !InClass(cls, next[0]))
    case Opt(c) => f == [c] || (f == [] && (next == [] || next[0] != c))
    case HashKey =>
      && |f| >= 2 && f[0] == '"' && f[|f| - 1] == '"'
      && (forall k :: 1 <= k < |f| - 1 ==> f[k] != '"')
      && HasInnerHash(f[1..|f| - 1])
  }

  /** The group a piece captures when it consumes `f`. */
  function Group(p: Piece, f: string): seq<string> {
    match p
    case OneOf(_) => [f]
    case Run(_, _, captured) => if captured then [f] else []
    case HashKey => if |f| >= 2 then [f[1..|f| - 1]] else []
    case _ => []
  }

  /** `parts[k]` fits piece `ps[k]`, each followed by the rest of the parts and `rest`. */
  predicate Fitted(ps: seq<Piece>, parts: seq<string>, rest: string)
    decreases |ps|
  {
    && |ps| == |parts|
    && (ps != [] ==>
          && Fits(ps[0], parts[0], Concat(parts[1..]) + rest)
          && Fitted(ps[1..], parts[1..], rest))
  }

  /** The parts occur one after the other in `s` from position `i`, each
      fitting its piece. */
  predicate FittedAt(ps: seq<Piece>, parts: seq<string>, s: string, i: nat)
    decreases |ps|
  {
    && |ps| == |parts|
    && i <= |s|
    && (ps != [] ==>
          && i + |parts[0]| <= |s|
          && s[i..i + |parts[0]|] == parts[0]
          && Fits(ps[0], parts[0], s[i + |parts[0]|..])
          && FittedAt(ps[1..], parts[1..], s, i + |parts[0]|))
  }

  function Groups(ps: seq<Piece>, parts: seq<string>): seq<string>
    requires |ps| == |parts|
  {
    if ps == [] then [] else Group(ps[0], parts[0]) + Groups(ps[1..], parts[1..])
  }

  lemma {:induction false} ConcatAppend(pa: seq<string>, pb: seq<string>)
    ensures Concat(pa + pb) == Concat(pa) + Concat(pb)
    decreases |pa|
  {
    if pa == [] {
      assert pa + pb == pb;
    } else {
      assert (pa + pb)[1..] == pa[1..] + pb;
      ConcatAppend(pa[1..], pb);
    }
  }

  lemma {:induction false} GroupsAppend(a: seq<Piece>, pa: seq<string>, b: seq<Piece>, pb: seq<string>)
    requires |a| == |pa| && |b| == |pb|
    ensures Groups(a + b, pa + pb) == Groups(a, pa) + Groups(b, pb)
    decreases |a|
  {
    if a == [] {
      assert a + b == b && pa + pb == pb;
    } else {
      assert (a + b)[1..] == a[1..] + b && (pa + pb)[1..] == pa[1..] + pb;
      GroupsAppend(a[1..], pa[1..], b, pb);
    }
  }

  /** Parts that fit one pattern, in front of parts that fit another, fit
      the two patterns written one after the other. */
  lemma {:induction false} FittedAppend(a: seq<Piece>, pa: seq<string>, b: seq<Piece>, pb: seq<string>, rest: string)
    requires Fitted(a, pa, Concat(pb) + rest) && Fitted(b, pb, rest)
    ensures Fitted(a + b, pa + pb, rest)
    decreases |a|
  {
    if a == [] {
      assert a + b == b && pa + pb == pb;
    } else {
      FittedAppend(a[1..], pa[1..], b, pb, rest);
      ConcatAppend(pa[1..], pb);
      assert Concat(pa[1..]) + (Concat(pb) + rest) == Concat(pa[1..] + pb) + rest;
      TailOfConcat(a, b);
      TailOfConcat(pa, pb);
    }
  }

  /** A piece matches exactly the text that fits it. */
  lemma StepOfFit(p: Piece, s: string, i: nat, f: string)
    requires i + |f| <= |s| && s[i..i + |f|] == f
    requires Fits(p, f, s[i + |f|..])
    ensures Step(p, s, i).Some?
    ensures Step(p, s, i).value.end == i + |f| && Step(p, s, i).value.groups == Group(p, f)
  {
    match p
    case Lit(t) =>
    case NoCase(t) =>
    case OneOf(alts) =>
      assert s[i..] == f + s[i + |f|..];
    case Run(cls, atLeastOne, captured) =>
      StepOfFitRun(cls, atLeastOne, captured, s, i, f);
    case Opt(c) =>
    case HashKey =>
      StepOfFitKey(s, i, f);
  }

  lemma StepOfFitRun(cls: Class, atLeastOne: bool, captured: bool, s: string, i: nat, f: string)
    requires i + |f| <= |s| && s[i..i + |f|] == f
    requires Fits(Run(cls, atLeastOne, captured), f, s[i + |f|..])
    ensures Step(Run(cls, atLeastOne, captured), s, i).Some?
    ensures Step(Run(cls, atLeastOne, captured), s, i).value.end == i + |f|
    ensures Step(Run(cls, atLeastOne, captured), s, i).value.groups == Group(Run(cls, atLeastOne, captured), f)
  {
    assert i + |f| == |s| || s[i + |f|] == s[i + |f|..][0];
    RunEndOfRun(s, i, f, cls);
  }

  lemma StepOfFitKey(s: string, i: nat, f: string)
    requires i + |f| <= |s| && s[i..i + |f|] == f
    requires Fits(HashKey, f, s[i + |f|..])
    ensures Step(HashKey, s, i).Some?
    ensures Step(HashKey, s, i).value.end == i + |f|
    ensures Step(HashKey, s, i).value.groups == Group(HashKey, f)
  {
    var inner := f[1..|f| - 1];
    assert |f| >= 2;
    assert forall k :: 0 <= k < |f| ==> s[i + k] == f[k];
    assert s[i + 1..i + 1 + |inner|] == inner;
    assert s[i + 1 + |inner|] == f[|f| - 1];
    RunEndOfRun(s, i + 1, inner, NotQuote);
  }

  /** Round trip: where parts that fit a pattern's pieces occur one after the
      other, the pattern matches them from the first character to the last,
      and the groups are the captured parts themselves. */
  lemma {:induction false} MatchOfRendering(ps: seq<Piece>, parts: seq<string>, s: string, i: nat)
    requires FittedAt(ps, parts, s, i)
    ensures i + |Concat(parts)| <= |s|
    ensures MatchAt(ps, s, i).Some?
    ensures MatchAt(ps, s, i).value.end == i + |Concat(parts)|
    ensures MatchAt(ps, s, i).value.groups == Groups(ps, parts)
    decreases |ps|
  {
    if ps != [] {
      FirstOfFittedAt(ps, parts, s, i);
      MatchOfRendering(ps[1..], parts[1..], s, i + |parts[0]|);
      FitThenMatch(ps, s, i, parts[0], i + |Concat(parts)|, Groups(ps[1..], parts[1..]));
      FirstOfGroups(ps, parts);
    }
  }

  /** Parts that occur from `i` on: the first one, its fit, and the length of all of them. */
  lemma FirstOfFittedAt(ps: seq<Piece>, parts: seq<string>, s: string, i: nat)
    requires ps != [] && FittedAt(ps, parts, s, i)
    ensures parts != [] && i + |parts[0]| <= |s| && s[i..i + |parts[0]|] == parts[0]
    ensures Fits(ps[0], parts[0], s[i + |parts[0]|..])
    ensures FittedAt(ps[1..], parts[1..], s, i + |parts[0]|)
    ensures |Concat(parts)| == |parts[0]| + |Concat(parts[1..])|
  {
  }

  lemma FirstOfGroups(ps: seq<Piece>, parts: seq<string>)
    requires ps != [] && |ps| == |parts|
    ensures Groups(ps, parts) == Group(ps[0], parts[0]) + Groups(ps[1..], parts[1..])
  {
  }

  /** Parts that fit, written out one after the other after `pre` and before `rest`. */
  lemma {:induction false} FittedOfConcat(ps: seq<Piece>, parts: seq<string>, pre: string, rest: string)
    requires Fitted(ps, parts, rest)
    ensures FittedAt(ps, parts, pre + Concat(parts) + rest, |pre|)
    decreases |ps|
  {
    if ps != [] {
      var s := pre + Concat(parts) + rest;
      var tail := Concat(parts[1..]);
      assert Concat(parts) == parts[0] + tail;
      assert s == (pre + parts[0]) + tail + rest;
      assert s[|pre|..|pre| + |parts[0]|] == parts[0];
      assert s[|pre| + |parts[0]|..] == tail + rest;
      FittedOfConcat(ps[1..], parts[1..], pre + parts[0], rest);
    }
  }

  /** Text that fits the first piece, followed by a match of the others. */
  lemma FitThenMatch(ps: seq<Piece>, s: string, i: nat, f: string, end: nat, groups: seq<string>)
    requires ps != [] && i + |f| <= |s| && s[i..i + |f|] == f
    requires Fits(ps[0], f, s[i + |f|..])
    requires MatchAt(ps[1..], s, i + |f|).Some?
    requires MatchAt(ps[1..], s, i + |f|).value.end == end
    requires MatchAt(ps[1..], s, i + |f|).value.groups == groups
    ensures MatchAt(ps, s, i).Some?
    ensures MatchAt(ps, s, i).value.end == end
    ensures MatchAt(ps, s, i).value.groups == Group(ps[0], f) + groups
  {
    StepOfFit(ps[0], s, i, f);
    var h := Step(ps[0], s, i);
    assert h.Some? && h.value.end == i + |f| && h.value.groups == Group(ps[0], f);
  }

  /** A match of two patterns written one after the other is a match of the
      first followed by a match of the second, and its groups are theirs. */
  lemma {:induction false} MatchAtSplit(a: seq<Piece>, b: seq<Piece>, s: string, i: nat)
    requires i <= |s| && MatchAt(a + b, s, i).Some?
    ensures MatchAt(a, s, i).Some?
    ensures MatchAt(b, s, MatchAt(a, s, i).value.end).Some?
    ensures MatchAt(b, s, MatchAt(a, s, i).value.end).value.end == MatchAt(a + b, s, i).value.end
    ensures MatchAt(a, s, i).value.groups + MatchAt(b, s, MatchAt(a, s, i).value.end).value.groups
            == MatchAt(a + b, s, i).value.groups
    decreases |a|
  {
    if a == [] {
      assert a + b == b;
    } else {
      TailOfConcat(a, b);
      var h := MatchHead(a + b, a[0], a[1..] + b, s, i);
      MatchAtSplit(a[1..], b, s, h.end);
      var ra := MatchAt(a[1..], s, h.end).value;
      var rb := MatchAt(b, s, ra.end).value;
      MatchJoin(a, a[0], a[1..], s, i, h, ra);
      GroupsRegroup(h.groups, ra.groups, rb.groups);
    }
  }

  /** A match of the first pattern that the second cannot continue leaves the
      two written one after the other without a match. */
  lemma MatchAtSplitNone(a: seq<Piece>, b: seq<Piece>, s: string, i: nat)
    requires i <= |s| && MatchAt(a, s, i).Some? && MatchAt(b, s, MatchAt(a, s, i).value.end).None?
    ensures MatchAt(a + b, s, i).None?
  {
    if MatchAt(a + b, s, i).Some? {
      MatchAtSplit(a, b, s, i);
      assert false;
    }
  }

  lemma GroupsRegroup(x: seq<string>, y: seq<string>, z: seq<string>)
    ensures (x + y) + z == x + (y + z)
  {
  }

  /** The step of the first piece in a match. */
  lemma MatchHead(ps: seq<Piece>, p: Piece, tl: seq<Piece>, s: string, i: nat) returns (h: Hit)
    requires i <= |s| && ps != [] && ps[0] == p && ps[1..] == tl && MatchAt(ps, s, i).Some?
    ensures Step(p, s, i) == Some(h) && MatchAt(tl, s, h.end).Some?
    ensures MatchAt(ps, s, i).value.end == MatchAt(tl, s, h.end).value.end
    ensures MatchAt(ps, s, i).value.groups == h.groups + MatchAt(tl, s, h.end).value.groups
  {
    h := Step(p, s, i).value;
  }

  /** A step of the first piece followed by a match of the others. */
  lemma MatchJoin(ps: seq<Piece>, p: Piece, tl: seq<Piece>, s: string, i: nat, h: Hit, r: Hit)
    requires i <= |s| && ps != [] && ps[0] == p && ps[1..] == tl
    requires Step(p, s, i) == Some(h) && MatchAt(tl, s, h.end) == Some(r)
    ensures MatchAt(ps, s, i) == Some(Hit(r.end, h.groups + r.groups))
  {
  }

  lemma TailOfConcat<T>(a: seq<T>, b: seq<T>)
    requires a != []
    ensures (a + b)[0] == a[0] && (a + b)[1..] == a[1..] + b
  {
  }

  /** A match of a non-empty pattern is a step of its first piece followed
      by a match of the rest. */
  lemma MatchAtFirst(ps: seq<Piece>, s: string, i: nat)
    requires i <= |s| && ps != []
    ensures MatchAt(ps, s, i).Some? <==>
              Step(ps[0], s, i).Some? && MatchAt(ps[1..], s, Step(ps[0], s, i).value.end).Some?
    ensures MatchAt(ps, s, i).Some? ==>
              MatchAt(ps, s, i).value.end
                == MatchAt(ps[1..], s, Step(ps[0], s, i).value.end).value.end
    ensures MatchAt(ps, s, i).Some? ==>
              MatchAt(ps, s, i).value.groups
                == Step(ps[0], s, i).value.groups + MatchAt(ps[1..], s, Step(ps[0], s, i).value.end).value.groups
  {
  }

  /** A part that fits its piece, in front of parts that fit theirs. */
  lemma FittedCons(p: Piece, ps: seq<Piece>, f: string, parts: seq<string>, rest: string)
    requires Fits(p, f, Concat(parts) + rest) && Fitted(ps, parts, rest)
    ensures Fitted([p] + ps, [f] + parts, rest)
    ensures Concat([f] + parts) == f + Concat(parts)
    ensures Groups([p] + ps, [f] + parts) == Group(p, f) + Groups(ps, parts)
  {
    assert ([p] + ps)[1..] == ps && ([f] + parts)[1..] == parts;
  }

  /** Completeness of `re.search`: text written out from parts that fit a
      pattern, after a prefix where the pattern matches nowhere, is found
      right after the prefix, and the groups are the captured parts. */
  lemma SearchOfRendering(ps: seq<Piece>, parts: seq<string>, pre: string, rest: string)
    requires Fitted(ps, parts, rest)
    requires forall k :: 0 <= k < |pre| ==> MatchAt(ps, pre + Concat(parts) + rest, k).None?
    ensures var r := Search(ps, pre + Concat(parts) + rest, 0);
            && r.Some? && r.value.start == |pre|
            && r.value.hit.end == |pre| + |Concat(parts)|
            && r.value.hit.groups == Groups(ps, parts)
  {
    var s := pre + Concat(parts) + rest;
    FittedOfConcat(ps, parts, pre, rest);
    MatchOfRendering(ps, parts, s, |pre|);
  }

  /** The same from a position `from` on: after text from `from` where the
      pattern matches nowhere, the rendering is the next match. */
  lemma SearchFromRendering(ps: seq<Piece>, parts: seq<string>, pre: string, rest: string, from: nat)
    requires Fitted(ps, parts, rest)
    requires from <= |pre| && forall k :: from <= k < |pre| ==> MatchAt(ps, pre + Concat(parts) + rest, k).None?
    ensures var r := Search(ps, pre + Concat(parts) + rest, from);
            && r.Some? && r.value.start == |pre|
            && r.value.hit.end == |pre| + |Concat(parts)|
            && r.value.hit.groups == Groups(ps, parts)
  {
    var s := pre + Concat(parts) + rest;
    FittedOfConcat(ps, parts, pre, rest);
    MatchOfRendering(ps, parts, s, |pre|);
    SearchSkip(ps, s, from, |pre|);
  }

  /** Where nothing matches between `from` and a match at `at`, `re.search`
      from `from` finds that match. */
  lemma {:induction false} SearchSkip(ps: seq<Piece>, s: string, from: nat, at: nat)
    requires from <= at <= |s| && MatchAt(ps, s, at).Some?
    requires forall k :: from <= k < at ==> MatchAt(ps, s, k).None?
    ensures Search(ps, s, from) == Some(Found(at, MatchAt(ps, s, at).value))
    decreases at - from
  {
    if from < at {
      SearchSkip(ps, s, from + 1, at);
    }
  }

  /** `re.findall` from where a match is found: its groups, then those of
      the matches after it. */
  lemma FindAllFirst(ps: seq<Piece>, s: string, from: nat)
    requires Search(ps, s, from).Some?
    ensures var f := Search(ps, s, from).value;
            var next := if f.hit.end > f.start then f.hit.end else f.start + 1;
            FindAll(ps, s, from) == [f.hit.groups] + FindAll(ps, s, next)
  {
  }

  // ---------------------------------------------------------------------------
  // Alternatives told apart by their first two letters
  // ---------------------------------------------------------------------------

  /** The characters at `k` and `k + 1`, lower-cased. */
  function PairAt(s: string, k: nat): (char, char)
    requires k + 1 < |s|
  {
    (LowerChar(s[k]), LowerChar(s[k + 1]))
  }

  /** Every alternative has at least two characters, and the `i`-th opens
      with the pair `ops[i]`. */
  predicate OpensAs(alts: seq<string>, ops: seq<(char, char)>) {
    |alts| == |ops| && forall i :: 0 <= i < |alts| ==> |alts[i]| >= 2 && PairAt(alts[i], 0) == ops[i]
  }

  /** No element occurs twice. */
  predicate Distinct<T(==)>(xs: seq<T>) {
    xs == [] || (xs[0] !in xs[1..] && Distinct(xs[1..]))
  }

  /** Text that starts with an alternative, in any case, opens with that
      alternative's pair. */
  lemma AltPair(a: string, u: string)
    requires 2 <= |a| <= |u|
    ensures SameLetters(u[..|a|], a) ==> PairAt(u, 0) == PairAt(a, 0)
  {
    if SameLetters(u[..|a|], a) {
      assert Lower(u[..|a|])[0] == Lower(a)[0] && Lower(u[..|a|])[1] == Lower(a)[1];
    }
  }

  /** When the alternatives open with distinct pairs, text starting with the
      `j`-th one, in any case, selects exactly that one. */
  lemma {:induction false} FirstAltOfOpening(alts: seq<string>, ops: seq<(char, char)>, u: string, j: nat)
    requires OpensAs(alts, ops) && Distinct(ops)
    requires j < |alts| && |alts[j]| <= |u| && SameLetters(u[..|alts[j]|], alts[j])
    ensures FirstAlt(alts, u) == Some(j)
    decreases j
  {
    AltPair(alts[j], u);
    if j > 0 {
      if |alts[0]| <= |u| {
        AltPair(alts[0], u);
        assert ops[j] == ops[1..][j - 1];
      }
      FirstAltOfOpening(alts[1..], ops[1..], u, j - 1);
    }
  }

  /** Text whose first two characters open none of the alternatives starts
      with none of them. */
  lemma {:induction false} NoAltHere(alts: seq<string>, ops: seq<(char, char)>, u: string)
    requires OpensAs(alts, ops)
    requires |u| >= 2 ==> PairAt(u, 0) !in ops
    ensures FirstAlt(alts, u).None?
    decreases |alts|
  {
    if alts != [] {
      if |alts[0]| <= |u| {
        AltPair(alts[0], u);
      }
      NoAltHere(alts[1..], ops[1..], u);
    }
  }

  /** A pattern that starts with alternatives does not match where the text
      does not open one of them. */
  lemma NoMatchHere(ps: seq<Piece>, ops: seq<(char, char)>, s: string, k: nat)
    requires ps != [] && ps[0].OneOf? && OpensAs(ps[0].alts, ops)
    requires k <= |s| && (k + 1 < |s| ==> PairAt(s, k) !in ops)
    ensures MatchAt(ps, s, k).None?
  {
    var u := s[k..];
    if |u| >= 2 {
      assert PairAt(u, 0) == PairAt(s, k);
    }
    NoAltHere(ps[0].alts, ops, u);
  }

  // ---------------------------------------------------------------------------
  // What the groups of a match look like
  // ---------------------------------------------------------------------------

  /** The group a capturing piece yields has the shape the piece promises: an
      alternative spelled in any case, a run of the class (non-empty for `+`),
      a quoted key. */
  predicate GroupFits(p: Piece, g: string) {
    match p
    case OneOf(alts) => exists j :: 0 <= j < |alts| && SameLetters(g, alts[j])
    case Run(cls, atLeastOne, _) =>
      && (atLeastOne ==> g != [])
      && forall k :: 0 <= k < |g| ==> InClass(cls, g[k])
    case HashKey => HasInnerHash(g) && '"' !in g
    case _ => true
  }

  /** The group a single piece captures has the promised shape. */
  lemma StepGroupFits(p: Piece, s: string, i: nat)
    requires i <= |s| && Step(p, s, i).Some? && Captures(p) == 1
    ensures GroupFits(p, Step(p, s, i).value.groups[0])
  {
    match p
    case OneOf(alts) =>
      StepOneOfGroup(alts, s, i);
    case HashKey =>
      var j := RunEnd(s, i + 1, NotQuote);
      var g := s[i + 1..j];
      assert forall k :: 0 <= k < |g| ==> g[k] == s[i + 1 + k];
    case Run(cls, atLeastOne, captured) =>
    case _ =>
  }

  /** Every match's groups have the shape their pieces promise. */
  lemma {:induction false} MatchGroupsFit(ps: seq<Piece>, s: string, i: nat)
    requires i <= |s| && MatchAt(ps, s, i).Some?
    ensures forall k :: 0 <= k < |Captured(ps)| ==>
              GroupFits(Captured(ps)[k], MatchAt(ps, s, i).value.groups[k])
    decreases |ps|
  {
    if ps != [] {
      var h := Step(ps[0], s, i).value;
      var rest := MatchAt(ps[1..], s, h.end).value;
      var g := MatchAt(ps, s, i).value.groups;
      assert g == h.groups + rest.groups;
      MatchGroupsFit(ps[1..], s, h.end);
      if Captures(ps[0]) == 1 {
        StepGroupFits(ps[0], s, i);
        assert Captured(ps) == [ps[0]] + Captured(ps[1..]);
      } else {
        assert Captured(ps) == Captured(ps[1..]);
      }
    }
  }

  /** The group an alternation captures is the alternative it found, in the
      case the text spells it. */
  lemma StepOneOfGroup(alts: seq<string>, s: string, i: nat)
    requires i <= |s| && Step(OneOf(alts), s, i).Some?
    ensures exists j :: 0 <= j < |alts| && SameLetters(Step(OneOf(alts), s, i).value.groups[0], alts[j])
  {
    var t := s[i..];
    var j := FirstAlt(alts, t).value;
    var n := |alts[j]|;
    assert n <= |t| && i + n <= |s|;
    assert t[..n] == s[i..i + n] by {
      forall k | 0 <= k < n
        ensures t[..n][k] == s[i..i + n][k]
      {
        assert t[..n][k] == t[k] == s[i + k];
      }
    }
    assert Step(OneOf(alts), s, i).value.groups[0] == s[i..i + n];
  }

  /** Every `findall` result's groups have the shape their pieces promise. */
  lemma {:induction false} FindAllGroupsFit(ps: seq<Piece>, s: string, from: nat)
    ensures forall m, k :: 0 <= m < |FindAll(ps, s, from)| && 0 <= k < |Captured(ps)| ==>
              GroupFits(Captured(ps)[k], FindAll(ps, s, from)[m][k])
    decreases |s| + 1 - from
  {
    var f := Search(ps, s, from);
    if f.Some? {
      var start := f.value.start;
      var next := if f.value.hit.end > start then f.value.hit.end else start + 1;
      assert FindAll(ps, s, from) == [f.value.hit.groups] + FindAll(ps, s, next);
      assert f.value.hit == MatchAt(ps, s, start).value;
      MatchGroupsFit(ps, s, start);
      FindAllGroupsFit(ps, s, next);
      GroupsFitCons(Captured(ps), f.value.hit.groups, FindAll(ps, s, next));
    }
  }

  /** Groups that fit their pieces, in front of more such groups. */
  lemma GroupsFitCons(cs: seq<Piece>, g: seq<string>, later: seq<seq<string>>)
    requires |g| >= |cs| && forall k :: 0 <= k < |cs| ==> GroupFits(cs[k], g[k])
    requires forall m :: 0 <= m < |later| ==> |later[m]| >= |cs|
    requires forall m, k :: 0 <= m < |later| && 0 <= k < |cs| ==> GroupFits(cs[k], later[m][k])
    ensures forall m, k :: 0 <= m < |[g] + later| && 0 <= k < |cs| ==>
              k < |([g] + later)[m]| && GroupFits(cs[k], ([g] + later)[m][k])
  {
    forall m, k | 0 <= m < |[g] + later| && 0 <= k < |cs|
      ensures k < |([g] + later)[m]| && GroupFits(cs[k], ([g] + later)[m][k])
    {
      if m > 0 {
        assert ([g] + later)[m] == later[m - 1];
      } else {
        assert ([g] + later)[m] == g;
      }
    }
  }
}
