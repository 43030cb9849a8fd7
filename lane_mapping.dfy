/** The lane annotations of the team configuration: each player line of the
    form `"Name#Tag": {...}, #LANE` contributes the pair (riot id, lane), and
    the scraper keeps them in a dictionary from riot id to lane. */
module LaneMapping {
  import opened Options
  import opened Text
  import opened Regex

  // ---------------------------------------------------------------------------
  // The pattern `"([^"]+#[^"]+)"\s*:\s*\{[^}]*\}\s*,?\s*#\s*(\w+)`
  // ---------------------------------------------------------------------------

  /** `"([^"]+#[^"]+)"\s*:\s*\{[^}]*\}`: the quoted riot id and its settings. */
  const KeyPart: seq<Piece> :=
    [HashKey, Run(Space, false, false), Lit(":"), Run(Space, false, false),
     Lit("{"), Run(NotBrace, false, false), Lit("}")]

  /** `\s*,?\s*#\s*(\w+)`: the trailing comment naming the lane. A shorter first
      `\s*` could only leave whitespace for the second one, so consuming it
      greedily reaches the same `#`. */
  const LanePart: seq<Piece> :=
    [Run(Space, false, false), Opt(','), Run(Space, false, false), Lit("#"),
     Run(Space, false, false), Run(WordChar, true, true)]

  const LanePattern: seq<Piece> := KeyPart + LanePart

  /** The two groups are the riot id and the lane. */
  lemma LaneCaptures()
    ensures Captured(LanePattern) == [HashKey, Run(WordChar, true, true)]
  {
    CapturedAppend(KeyPart, LanePart);
    assert Captured(KeyPart) == [HashKey];
    assert Captured(LanePart) == [Run(WordChar, true, true)];
  }

  /** `re.findall` of the pattern over the configuration text. Every result
      is a pair [riot id, lane]; `LaneRoundTrip` shows that an annotated
      player line gives its own pair, and `LinesRoundTrip` that player lines
      give their pairs in the order of the text. */
  function Annotations(config: string): (r: seq<seq<string>>)
    ensures forall m :: 0 <= m < |r| ==> |r[m]| == 2
  {
    LaneCaptures();
    FindAll(LanePattern, config, 0)
  }

  /** The dictionary built by assigning the pairs in order. */
  function MappingOf(pairs: seq<seq<string>>): map<string, string>
    requires forall m :: 0 <= m < |pairs| ==> |pairs[m]| == 2
  {
    if pairs == [] then map[]
    else
      var last := pairs[|pairs| - 1];
      MappingOf(pairs[..|pairs| - 1])[last[0] := last[1]]
  }

  /** The lane mapping of a configuration file, `None` standing for a file
      that could not be read (the exception handler returns the empty
      dictionary). */
  function LaneMap(config: Option<string>): map<string, string> {
    match config
    case None => map[]
    case Some(text) => MappingOf(Annotations(text))
  }

  // ---------------------------------------------------------------------------
  // The parse
  // ---------------------------------------------------------------------------

  /** Reads the annotations one by one into the dictionary. */
  method ExtractLaneMapping(config: Option<string>) returns (mapping: map<string, string>)
    ensures mapping == LaneMap(config)
  {
    mapping := map[];
    if config.Some? {
      var pairs := Annotations(config.value);
      for i := 0 to |pairs|
        invariant mapping == MappingOf(pairs[..i])
      {
        assert pairs[..i + 1][..i] == pairs[..i];
        mapping := mapping[pairs[i][0] := pairs[i][1]];
      }
      assert pairs[..|pairs|] == pairs;
    }
  }

  // ---------------------------------------------------------------------------
  // What the dictionary holds
  // ---------------------------------------------------------------------------

  /** A riot id is a key exactly when some pair names it, and its lane is the
      one of the LAST pair naming it: a later duplicate overwrites. */
  lemma LastPairWins(pairs: seq<seq<string>>, id: string)
    requires forall m :: 0 <= m < |pairs| ==> |pairs[m]| == 2
    ensures id in MappingOf(pairs) <==> exists m :: 0 <= m < |pairs| && pairs[m][0] == id
    ensures forall m :: 0 <= m < |pairs| && pairs[m][0] == id
                        && (forall n :: m < n < |pairs| ==> pairs[n][0] != id) ==>
                        id in MappingOf(pairs) && MappingOf(pairs)[id] == pairs[m][1]
    ensures id in MappingOf(pairs) ==>
              exists m :: 0 <= m < |pairs| && pairs[m][0] == id && MappingOf(pairs)[id] == pairs[m][1]
  {
    PairKeys(pairs, id);
    LastPairValue(pairs, id);
  }

  /** The keys are the ids some pair names, each holding the lane of a pair
      naming it. */
  lemma {:induction false} PairKeys(pairs: seq<seq<string>>, id: string)
    requires forall m :: 0 <= m < |pairs| ==> |pairs[m]| == 2
    ensures id in MappingOf(pairs) <==> exists m :: 0 <= m < |pairs| && pairs[m][0] == id
    ensures id in MappingOf(pairs) ==>
              exists m :: 0 <= m < |pairs| && pairs[m][0] == id && MappingOf(pairs)[id] == pairs[m][1]
    decreases |pairs|
  {
    if pairs != [] {
      var front := pairs[..|pairs| - 1];
      var last := pairs[|pairs| - 1];
      PairKeys(front, id);
      assert MappingOf(pairs) == MappingOf(front)[last[0] := last[1]];
      forall m | 0 <= m < |front| ensures front[m] == pairs[m] { }
      if last[0] == id {
        assert MappingOf(pairs)[id] == last[1];
      } else {
        assert id in MappingOf(pairs) <==> id in MappingOf(front);
      }
    }
  }

  /** The lane of the last pair naming an id is the one kept. */
  lemma {:induction false} LastPairValue(pairs: seq<seq<string>>, id: string)
    requires forall m :: 0 <= m < |pairs| ==> |pairs[m]| == 2
    ensures forall m :: 0 <= m < |pairs| && pairs[m][0] == id
                        && (forall n :: m < n < |pairs| ==> pairs[n][0] != id) ==>
                        id in MappingOf(pairs) && MappingOf(pairs)[id] == pairs[m][1]
    decreases |pairs|
  {
    if pairs != [] {
      var front := pairs[..|pairs| - 1];
      var last := pairs[|pairs| - 1];
      LastPairValue(front, id);
      assert MappingOf(pairs) == MappingOf(front)[last[0] := last[1]];
      forall m | 0 <= m < |front| ensures front[m] == pairs[m] { }
    }
  }

  /** Every key of the mapping is a quoted riot id: it contains a '#' with a
      character on each side, and no '"'. */
  lemma LaneKeys(config: Option<string>)
    ensures forall id :: id in LaneMap(config) ==> HasInnerHash(id) && '#' in id && '"' !in id
  {
    if config.Some? {
      var pairs := Annotations(config.value);
      LaneCaptures();
      FindAllGroupsFit(LanePattern, config.value, 0);
      forall id | id in LaneMap(config)
        ensures HasInnerHash(id) && '#' in id && '"' !in id
      {
        LastPairWins(pairs, id);
        var m :| 0 <= m < |pairs| && pairs[m][0] == id;
        assert GroupFits(Captured(LanePattern)[0], pairs[m][0]);
      }
    }
  }

  /** Every lane of the mapping is a non-empty word: what `\w+` captured. */
  lemma LaneValues(config: Option<string>)
    ensures forall id :: id in LaneMap(config) ==>
              LaneMap(config)[id] != [] && forall k :: 0 <= k < |LaneMap(config)[id]| ==> IsWordChar(LaneMap(config)[id][k])
  {
    if config.Some? {
      var pairs := Annotations(config.value);
      LaneCaptures();
      FindAllGroupsFit(LanePattern, config.value, 0);
      forall id | id in LaneMap(config)
        ensures LaneMap(config)[id] != [] && forall k :: 0 <= k < |LaneMap(config)[id]| ==> IsWordChar(LaneMap(config)[id][k])
      {
        LastPairWins(pairs, id);
        var m :| 0 <= m < |pairs| && pairs[m][0] == id && LaneMap(config)[id] == pairs[m][1];
        assert GroupFits(Captured(LanePattern)[1], pairs[m][1]);
      }
    }
  }

  // ---------------------------------------------------------------------------
  // Reading an annotated line back
  // ---------------------------------------------------------------------------

  /** Whitespace only, possibly none. */
  predicate Blank(w: string) {
    forall k :: 0 <= k < |w| ==> IsSpace(w[k])
  }

  /** A riot id the quoted key takes in full: no '"', and a '#' with a
      character on each side. */
  predicate KeyId(id: string) {
    '"' !in id && HasInnerHash(id)
  }

  /** A lane `\w+` takes in full. */
  predicate Word(lane: string) {
    lane != [] && forall k :: 0 <= k < |lane| ==> IsWordChar(lane[k])
  }

  function Quoted(id: string): string {
    "\"" + id + "\""
  }

  function Comma(c: bool): string {
    if c then "," else ""
  }

  /** `"id"  :  {settings}` with the whitespace `w1` and `w2`, one part per
      piece of `KeyPart`. */
  function KeyParts(id: string, w1: string, w2: string, settings: string): seq<string> {
    [Quoted(id), w1, ":", w2, "{", settings, "}"]
  }

  function KeyText(id: string, w1: string, w2: string, settings: string): string {
    Quoted(id) + (w1 + (":" + (w2 + ("{" + (settings + "}")))))
  }

  /** `  ,  #  LANE` with the whitespace `w3`, `w4` and `w5`, one part per
      piece of `LanePart`. Without the comma the whitespace before the '#' is
      all written as `w3`. */
  function LaneParts(w3: string, c: bool, w4: string, w5: string, lane: string): seq<string> {
    [w3, Comma(c), w4, "#", w5, lane]
  }

  function LaneText(w3: string, c: bool, w4: string, w5: string, lane: string): string {
    w3 + (Comma(c) + (w4 + ("#" + (w5 + lane))))
  }

  /** An annotated player line: `"id": {settings}, #LANE` with any whitespace
      the pattern allows. */
  function LaneLine(id: string, w1: string, w2: string, settings: string,
                    w3: string, c: bool, w4: string, w5: string, lane: string): string {
    KeyText(id, w1, w2, settings) + LaneText(w3, c, w4, w5, lane)
  }

  /** The quoted id fits `"([^"]+#[^"]+)"` and is captured without its quotes. */
  lemma QuotedFits(id: string, next: string)
    requires KeyId(id)
    ensures Fits(HashKey, Quoted(id), next) && Group(HashKey, Quoted(id)) == [id]
  {
    var f := Quoted(id);
    assert f[1..|f| - 1] == id;
    forall k | 1 <= k < |f| - 1 ensures f[k] != '"' {
      assert f[k] == id[k - 1];
    }
  }

  /** The key half of a line fits `KeyPart`, whatever follows it. */
  lemma KeyFitted(id: string, w1: string, w2: string, settings: string, next: string)
    requires KeyId(id) && Blank(w1) && Blank(w2) && '}' !in settings
    ensures Fitted(KeyPart, KeyParts(id, w1, w2, settings), next)
    ensures Concat(KeyParts(id, w1, w2, settings)) == KeyText(id, w1, w2, settings)
    ensures Groups(KeyPart, KeyParts(id, w1, w2, settings)) == [id]
  {
    KeyPartsFirst(id, w1, w2, settings);
    KeyFittedFirst(id, w1, w2, settings, next);
  }

  /** The pattern and the parts, each split after its first element. */
  lemma KeyPartsFirst(id: string, w1: string, w2: string, settings: string)
    ensures KeyPart == [HashKey] + KeyPart[1..]
    ensures KeyParts(id, w1, w2, settings) == [Quoted(id)] + [w1, ":", w2, "{", settings, "}"]
  {
  }

  /** ... from the quoted id on. */
  lemma KeyFittedFirst(id: string, w1: string, w2: string, settings: string, next: string)
    requires KeyId(id) && Blank(w1) && Blank(w2) && '}' !in settings
    ensures Fitted([HashKey] + KeyPart[1..], [Quoted(id)] + [w1, ":", w2, "{", settings, "}"], next)
    ensures Concat([Quoted(id)] + [w1, ":", w2, "{", settings, "}"]) == KeyText(id, w1, w2, settings)
    ensures Groups([HashKey] + KeyPart[1..], [Quoted(id)] + [w1, ":", w2, "{", settings, "}"]) == [id]
  {
    var q2, f2 := KeyPart[1..], [w1, ":", w2, "{", settings, "}"];
    ColonFitted(w1, w2, settings, next);
    QuotedFits(id, Concat(f2) + next);
    FittedCons(HashKey, q2, Quoted(id), f2, next);
  }

  /** ... from the whitespace before the colon on. */
  lemma ColonFitted(w1: string, w2: string, settings: string, next: string)
    requires Blank(w1) && Blank(w2) && '}' !in settings
    ensures Fitted(KeyPart[1..], [w1, ":", w2, "{", settings, "}"], next)
    ensures Concat([w1, ":", w2, "{", settings, "}"]) == w1 + (":" + (w2 + ("{" + (settings + "}"))))
    ensures Groups(KeyPart[1..], [w1, ":", w2, "{", settings, "}"]) == []
  {
    var q4, f4 := KeyPart[3..], [w2, "{", settings, "}"];
    SettingsFitted(w2, settings, next);
    FittedCons(Lit(":"), q4, ":", f4, next);
    FittedCons(Run(Space, false, false), [Lit(":")] + q4, w1, [":"] + f4, next);
    assert [Run(Space, false, false)] + ([Lit(":")] + q4) == KeyPart[1..];
    assert [w1] + ([":"] + f4) == [w1, ":", w2, "{", settings, "}"];
  }

  /** ... from the whitespace before the opening brace on. */
  lemma SettingsFitted(w2: string, settings: string, next: string)
    requires Blank(w2) && '}' !in settings
    ensures Fitted(KeyPart[3..], [w2, "{", settings, "}"], next)
    ensures Concat([w2, "{", settings, "}"]) == w2 + ("{" + (settings + "}"))
    ensures Groups(KeyPart[3..], [w2, "{", settings, "}"]) == []
  {
    BraceFitted(settings, next);
    FittedCons(Lit("{"), [Run(NotBrace, false, false), Lit("}")], "{", [settings, "}"], next);
    FittedCons(Run(Space, false, false), [Lit("{"), Run(NotBrace, false, false), Lit("}")], w2, ["{", settings, "}"], next);
    assert [Run(Space, false, false)] + [Lit("{"), Run(NotBrace, false, false), Lit("}")] == KeyPart[3..];
  }

  /** ... from the settings on. */
  lemma BraceFitted(settings: string, next: string)
    requires '}' !in settings
    ensures Fitted([Run(NotBrace, false, false), Lit("}")], [settings, "}"], next)
    ensures Concat([settings, "}"]) == settings + "}"
    ensures Groups([Run(NotBrace, false, false), Lit("}")], [settings, "}"]) == []
  {
    assert Concat([]) == [];
    FittedCons(Lit("}"), [], "}", [], next);
    FittedCons(Run(NotBrace, false, false), [Lit("}")], settings, ["}"], next);
  }

  /** The comment half of a line fits `LanePart` when what follows does not
      continue the lane. */
  lemma LaneFitted(w3: string, c: bool, w4: string, w5: string, lane: string, rest: string)
    requires Blank(w3) && Blank(w4) && Blank(w5) && Word(lane) && (!c ==> w4 == "")
    requires rest == [] || !IsWordChar(rest[0])
    ensures Fitted(LanePart, LaneParts(w3, c, w4, w5, lane), rest)
    ensures Concat(LaneParts(w3, c, w4, w5, lane)) == LaneText(w3, c, w4, w5, lane)
    ensures Groups(LanePart, LaneParts(w3, c, w4, w5, lane)) == [lane]
  {
    LanePartsFirst(w3, c, w4, w5, lane);
    LaneFittedFirst(w3, c, w4, w5, lane, rest);
  }

  /** The pattern and the parts, each split after its first element. */
  lemma LanePartsFirst(w3: string, c: bool, w4: string, w5: string, lane: string)
    ensures LanePart == [Run(Space, false, false)] + LanePart[1..]
    ensures LaneParts(w3, c, w4, w5, lane) == [w3] + [Comma(c), w4, "#", w5, lane]
  {
  }

  /** ... from the whitespace before the comma on. */
  lemma LaneFittedFirst(w3: string, c: bool, w4: string, w5: string, lane: string, rest: string)
    requires Blank(w3) && Blank(w4) && Blank(w5) && Word(lane) && (!c ==> w4 == "")
    requires rest == [] || !IsWordChar(rest[0])
    ensures Fitted([Run(Space, false, false)] + LanePart[1..], [w3] + [Comma(c), w4, "#", w5, lane], rest)
    ensures Concat([w3] + [Comma(c), w4, "#", w5, lane]) == LaneText(w3, c, w4, w5, lane)
    ensures Groups([Run(Space, false, false)] + LanePart[1..], [w3] + [Comma(c), w4, "#", w5, lane]) == [lane]
  {
    var q1, f1 := LanePart[1..], [Comma(c), w4, "#", w5, lane];
    CommaFitted(c, w4, w5, lane, rest);
    assert (Concat(f1) + rest)[0] == (if c then ',' else '#');
    FittedCons(Run(Space, false, false), q1, w3, f1, rest);
  }

  /** ... from the optional comma on. */
  lemma CommaFitted(c: bool, w4: string, w5: string, lane: string, rest: string)
    requires Blank(w4) && Blank(w5) && Word(lane) && (!c ==> w4 == "")
    requires rest == [] || !IsWordChar(rest[0])
    ensures Fitted(LanePart[1..], [Comma(c), w4, "#", w5, lane], rest)
    ensures Concat([Comma(c), w4, "#", w5, lane]) == Comma(c) + (w4 + ("#" + (w5 + lane)))
    ensures Groups(LanePart[1..], [Comma(c), w4, "#", w5, lane]) == [lane]
  {
    var q2, f2 := LanePart[2..], [w4, "#", w5, lane];
    BeforeHashFitted(w4, w5, lane, rest);
    assert (Concat(f2) + rest)[0] == (if w4 == "" then '#' else w4[0]);
    FittedCons(Opt(','), q2, Comma(c), f2, rest);
    assert [Opt(',')] + q2 == LanePart[1..];
    assert [Comma(c)] + f2 == [Comma(c), w4, "#", w5, lane];
  }

  /** ... from the whitespace before the '#' on. */
  lemma BeforeHashFitted(w4: string, w5: string, lane: string, rest: string)
    requires Blank(w4) && Blank(w5) && Word(lane) && (rest == [] || !IsWordChar(rest[0]))
    ensures Fitted(LanePart[2..], [w4, "#", w5, lane], rest)
    ensures Concat([w4, "#", w5, lane]) == w4 + ("#" + (w5 + lane))
    ensures Groups(LanePart[2..], [w4, "#", w5, lane]) == [lane]
  {
    var q3, f3 := LanePart[3..], ["#", w5, lane];
    HashLaneFitted(w5, lane, rest);
    FittedCons(Run(Space, false, false), q3, w4, f3, rest);
    assert [Run(Space, false, false)] + q3 == LanePart[2..];
    assert [w4] + f3 == [w4, "#", w5, lane];
  }

  /** ... from the '#' on. */
  lemma HashLaneFitted(w5: string, lane: string, rest: string)
    requires Blank(w5) && Word(lane) && (rest == [] || !IsWordChar(rest[0]))
    ensures Fitted(LanePart[3..], ["#", w5, lane], rest)
    ensures Concat(["#", w5, lane]) == "#" + (w5 + lane)
    ensures Groups(LanePart[3..], ["#", w5, lane]) == [lane]
  {
    assert Concat([]) == [];
    assert Concat([]) + rest == rest;
    FittedCons(Run(WordChar, true, true), [], lane, [], rest);
    assert (Concat([lane]) + rest)[0] == lane[0];
    FittedCons(Run(Space, false, false), [Run(WordChar, true, true)], w5, [lane], rest);
    FittedCons(Lit("#"), [Run(Space, false, false), Run(WordChar, true, true)], "#", [w5, lane], rest);
    assert [Lit("#"), Run(Space, false, false), Run(WordChar, true, true)] == LanePart[3..];
  }

  /** A whole annotated line fits the lane pattern, and its groups are the
      riot id and the lane. */
  lemma LineFitted(id: string, w1: string, w2: string, settings: string,
                   w3: string, c: bool, w4: string, w5: string, lane: string, rest: string)
    requires KeyId(id) && Blank(w1) && Blank(w2) && '}' !in settings
    requires Blank(w3) && Blank(w4) && Blank(w5) && Word(lane) && (!c ==> w4 == "")
    requires rest == [] || !IsWordChar(rest[0])
    ensures var parts := KeyParts(id, w1, w2, settings) + LaneParts(w3, c, w4, w5, lane);
            && Fitted(LanePattern, parts, rest)
            && Concat(parts) == LaneLine(id, w1, w2, settings, w3, c, w4, w5, lane)
            && Groups(LanePattern, parts) == [id, lane]
  {
    var kp, lp := KeyParts(id, w1, w2, settings), LaneParts(w3, c, w4, w5, lane);
    LaneFitted(w3, c, w4, w5, lane, rest);
    KeyFitted(id, w1, w2, settings, Concat(lp) + rest);
    FittedAppend(KeyPart, kp, LanePart, lp, rest);
    ConcatAppend(kp, lp);
    GroupsAppend(KeyPart, kp, LanePart, lp);
  }

  /** Round trip: an annotated line, after text from `from` on where the
      pattern matches nowhere, is the next pair `re.findall` yields, and the
      scan goes on right after it. */
  lemma LaneRoundTrip(s: string, from: nat, pre: string, id: string, w1: string, w2: string, settings: string,
                      w3: string, c: bool, w4: string, w5: string, lane: string, rest: string)
      returns (end: nat)
    requires KeyId(id) && Blank(w1) && Blank(w2) && '}' !in settings
    requires Blank(w3) && Blank(w4) && Blank(w5) && Word(lane) && (!c ==> w4 == "")
    requires rest == [] || !IsWordChar(rest[0])
    requires s == pre + LaneLine(id, w1, w2, settings, w3, c, w4, w5, lane) + rest
    requires from <= |pre| && forall k :: from <= k < |pre| ==> MatchAt(LanePattern, s, k).None?
    ensures end == |pre| + |LaneLine(id, w1, w2, settings, w3, c, w4, w5, lane)|
    ensures FindAll(LanePattern, s, from) == [[id, lane]] + FindAll(LanePattern, s, end)
  {
    LineFound(s, from, pre, id, w1, w2, settings, w3, c, w4, w5, lane, rest);
    end := |pre| + |LaneLine(id, w1, w2, settings, w3, c, w4, w5, lane)|;
    FindAllFrom(LanePattern, s, from, end, [id, lane]);
  }

  /** ... the line is the next match. */
  lemma LineFound(s: string, from: nat, pre: string, id: string, w1: string, w2: string, settings: string,
                  w3: string, c: bool, w4: string, w5: string, lane: string, rest: string)
    requires KeyId(id) && Blank(w1) && Blank(w2) && '}' !in settings
    requires Blank(w3) && Blank(w4) && Blank(w5) && Word(lane) && (!c ==> w4 == "")
    requires rest == [] || !IsWordChar(rest[0])
    requires s == pre + LaneLine(id, w1, w2, settings, w3, c, w4, w5, lane) + rest
    requires from <= |pre| && forall k :: from <= k < |pre| ==> MatchAt(LanePattern, s, k).None?
    ensures Search(LanePattern, s, from).Some? && Search(LanePattern, s, from).value.start == |pre|
    ensures Search(LanePattern, s, from).value.hit.end == |pre| + |LaneLine(id, w1, w2, settings, w3, c, w4, w5, lane)|
    ensures Search(LanePattern, s, from).value.hit.groups == [id, lane]
  {
    var parts := KeyParts(id, w1, w2, settings) + LaneParts(w3, c, w4, w5, lane);
    LineFitted(id, w1, w2, settings, w3, c, w4, w5, lane, rest);
    assert pre + Concat(parts) + rest == s;
    SearchFromRendering(LanePattern, parts, pre, rest, from);
  }

  /** `re.findall` from `from`: the next match's groups, then the scan from
      where that match ended. */
  lemma FindAllFrom(ps: seq<Piece>, s: string, from: nat, end: nat, g: seq<string>)
    requires Search(ps, s, from).Some? && Search(ps, s, from).value.start < end
    requires Search(ps, s, from).value.hit.end == end && Search(ps, s, from).value.hit.groups == g
    ensures FindAll(ps, s, from) == [g] + FindAll(ps, s, end)
  {
    FindAllFirst(ps, s, from);
  }

  /** No annotation starts at a character other than '"'. */
  lemma NoKeyHere(s: string, k: nat)
    requires k <= |s| && (k < |s| ==> s[k] != '"')
    ensures MatchAt(LanePattern, s, k).None?
  {
    assert LanePattern[0] == HashKey;
  }

  // ---------------------------------------------------------------------------
  // The player lines of a configuration
  // ---------------------------------------------------------------------------

  /** A player of the configuration, with its settings and its lane. */
  datatype Player = Player(id: string, settings: string, lane: string)

  predicate WellFormed(p: Player) {
    KeyId(p.id) && '}' !in p.settings && Word(p.lane)
  }

  /** Each player line is indented by eight spaces. */
  const Indent := "        "
  /** config.py ends its lines with CR LF, but `open` in text mode reads every
      line break as a single newline. */
  const Eol := "\n"

  /** `"id": {settings}, #LANE`, as the shipped configuration writes each
      player between its indent and its line break. */
  function PlayerLine(p: Player): string {
    LaneLine(p.id, "", " ", p.settings, "", true, " ", "", p.lane)
  }

  /** The lines of the players, one after the other. */
  function PlayerLines(players: seq<Player>): string {
    if players == [] then "" else Indent + PlayerLine(players[0]) + Eol + PlayerLines(players[1..])
  }

  /** The pairs the lines should give: riot id and lane of each player. */
  function PairsOf(players: seq<Player>): (pairs: seq<seq<string>>)
    ensures |pairs| == |players|
    ensures forall m :: 0 <= m < |pairs| ==> pairs[m] == [players[m].id, players[m].lane]
  {
    if players == [] then [] else [[players[0].id, players[0].lane]] + PairsOf(players[1..])
  }

  predicate NoQuoteIn(s: string, from: nat, to: nat)
    requires from <= to <= |s|
  {
    forall k :: from <= k < to ==> s[k] != '"'
  }

  /** Player lines, between text without quotes, give one pair per player,
      in order: `findall` reads every line back. */
  lemma {:induction false} LinesRoundTrip(s: string, from: nat, pre: string, players: seq<Player>, tail: string)
    requires forall m :: 0 <= m < |players| ==> WellFormed(players[m])
    requires s == pre + PlayerLines(players) + tail
    requires from <= |pre| && NoQuoteIn(s, from, |pre|)
    requires '"' !in tail
    ensures FindAll(LanePattern, s, from) == PairsOf(players)
    decreases |players|
  {
    if players == [] {
      NoQuoteNoPairs(s, from, pre, tail);
    } else {
      var more := PlayerLines(players[1..]) + tail;
      assert s == pre + (Indent + PlayerLine(players[0]) + Eol + more);
      var end, pre2 := PlayerStep(s, from, pre, players[0], more);
      assert s == pre2 + PlayerLines(players[1..]) + tail;
      LinesRoundTrip(s, end, pre2, players[1..], tail);
    }
  }

  /** Text without quotes holds no annotation. */
  lemma NoQuoteNoPairs(s: string, from: nat, pre: string, tail: string)
    requires s == pre + tail && from <= |pre| && NoQuoteIn(s, from, |pre|) && '"' !in tail
    ensures FindAll(LanePattern, s, from) == []
  {
    forall k | from <= k <= |s| ensures MatchAt(LanePattern, s, k).None? {
      if k < |s| && k >= |pre| {
        assert s[k] == tail[k - |pre|];
      }
      NoKeyHere(s, k);
    }
  }

  /** One indented player line after text without quotes: its pair comes
      first, and the scan goes on at its line break, which holds no quote. */
  lemma PlayerStep(s: string, from: nat, pre: string, p: Player, more: string) returns (end: nat, pre2: string)
    requires WellFormed(p)
    requires s == pre + (Indent + PlayerLine(p) + Eol + more)
    requires from <= |pre| && NoQuoteIn(s, from, |pre|)
    ensures pre2 == pre + Indent + PlayerLine(p) + Eol && s == pre2 + more
    ensures end <= |pre2| && NoQuoteIn(s, end, |pre2|)
    ensures FindAll(LanePattern, s, from) == [[p.id, p.lane]] + FindAll(LanePattern, s, end)
  {
    var line := PlayerLine(p);
    var pre1 := pre + Indent;
    var rest := Eol + more;
    StepText(s, pre, line, more);
    QuoteFreeGap(s, pre, Indent, line + rest, from);
    NoQuoteNoMatch(s, from, |pre1|);
    assert Blank(" ") && Blank("");
    end := LaneRoundTrip(s, from, pre1, p.id, "", " ", p.settings, "", true, " ", "", p.lane, rest);
    pre2 := pre1 + line + Eol;
    QuoteFreeGap(s, pre1 + line, Eol, more, end);
  }

  /** The same text, grouped the three ways the step reads it. */
  lemma StepText(s: string, pre: string, line: string, more: string)
    requires s == pre + (Indent + line + Eol + more)
    ensures s == pre + Indent + (line + (Eol + more))
    ensures s == (pre + Indent) + line + (Eol + more)
    ensures s == (pre + Indent) + line + Eol + more
  {
  }

  /** A gap without quotes after text without quotes. */
  lemma QuoteFreeGap(s: string, pre: string, gap: string, more: string, from: nat)
    requires s == pre + gap + more && from <= |pre| && NoQuoteIn(s, from, |pre|) && '"' !in gap
    ensures NoQuoteIn(s, from, |pre| + |gap|)
  {
    forall k | |pre| <= k < |pre| + |gap| ensures s[k] != '"' {
      assert s[k] == gap[k - |pre|];
    }
  }

  /** No annotation starts in text without quotes. */
  lemma NoQuoteNoMatch(s: string, from: nat, to: nat)
    requires from <= to <= |s| && NoQuoteIn(s, from, to)
    ensures forall k :: from <= k < to ==> MatchAt(LanePattern, s, k).None?
  {
    forall k | from <= k < to ensures MatchAt(LanePattern, s, k).None? {
      NoKeyHere(s, k);
    }
  }

  /** The players of the shipped configuration (config.py), in its order. */
  const TeamPlayers: seq<Player> :=
    [Player("FXN Artelî#EUW", Region, "TOP"), Player("cl1ck9r#EUWES", Region, "JGL"),
     Player("MarsFlag#Qwä", Region, "MID"), Player("ActionBear#EUW", Region, "ADC"),
     Player("zeLLay#ff15", Region, "SUPP")]

  /** `"region": "euw1"`, the settings of every player. */
  const Region := "\"region\": \"euw1\""

  /** The player lines of the shipped configuration, up to the brace that
      closes the players, give the five pairs in order. */
  lemma TeamAnnotations()
    ensures Annotations(PlayerLines(TeamPlayers) + "    }") == TeamPairs
  {
    TeamPlayersWellFormed();
    var s := PlayerLines(TeamPlayers) + "    }";
    NothingBefore(s, PlayerLines(TeamPlayers), "    }");
    LinesRoundTrip(s, 0, "", TeamPlayers, "    }");
  }

  /** The text starts right away: nothing comes before it. */
  lemma NothingBefore(s: string, lines: string, tail: string)
    requires s == lines + tail
    ensures s == "" + lines + tail && NoQuoteIn(s, 0, 0)
  {
    assert "" + lines == lines;
  }

  lemma TeamPlayersWellFormed()
    ensures forall m :: 0 <= m < |TeamPlayers| ==> WellFormed(TeamPlayers[m])
  {
    TopWellFormed();
    JungleWellFormed();
    MidWellFormed();
    BottomWellFormed();
    SupportWellFormed();
  }

  lemma TopWellFormed()
    ensures WellFormed(TeamPlayers[0])
  {
    TeamIds();
    TeamLaneWords();
    TeamPlayerWellFormed("FXN Artelî", "EUW", "TOP");
  }

  lemma JungleWellFormed()
    ensures WellFormed(TeamPlayers[1])
  {
    TeamIds();
    TeamLaneWords();
    TeamPlayerWellFormed("cl1ck9r", "EUWES", "JGL");
  }

  lemma MidWellFormed()
    ensures WellFormed(TeamPlayers[2])
  {
    TeamIds();
    TeamLaneWords();
    TeamPlayerWellFormed("MarsFlag", "Qwä", "MID");
  }

  lemma BottomWellFormed()
    ensures WellFormed(TeamPlayers[3])
  {
    TeamIds();
    TeamLaneWords();
    TeamPlayerWellFormed("ActionBear", "EUW", "ADC");
  }

  lemma SupportWellFormed()
    ensures WellFormed(TeamPlayers[4])
  {
    TeamIds();
    TeamLaneWords();
    TeamPlayerWellFormed("zeLLay", "ff15", "SUPP");
  }

  /** A player of the shipped configuration: a name and a tag without quotes
      joined by '#', the region settings and a lane word. */
  lemma TeamPlayerWellFormed(name: string, tag: string, lane: string)
    requires name != [] && tag != [] && '"' !in name && '"' !in tag && '#' !in name && Word(lane)
    ensures WellFormed(Player(name + "#" + tag, Region, lane))
  {
    RegionHasNoBrace();
    InnerHash(name, tag);
  }

  lemma TeamLaneWords()
    ensures Word("TOP") && Word("JGL") && Word("MID") && Word("ADC") && Word("SUPP")
  {
  }

  lemma RegionHasNoBrace()
    ensures '}' !in Region
  {
  }

  lemma TeamIds()
    ensures "FXN Artelî" + "#" + "EUW" == "FXN Artelî#EUW" && "cl1ck9r" + "#" + "EUWES" == "cl1ck9r#EUWES"
    ensures "MarsFlag" + "#" + "Qwä" == "MarsFlag#Qwä" && "ActionBear" + "#" + "EUW" == "ActionBear#EUW"
    ensures "zeLLay" + "#" + "ff15" == "zeLLay#ff15"
  {
  }

  /** A name and a tag without quotes, joined by '#', make a riot id the
      quoted key takes in full. */
  lemma InnerHash(name: string, tag: string)
    requires name != [] && tag != [] && '"' !in name && '"' !in tag && '#' !in name
    ensures KeyId(name + "#" + tag)
  {
    var id := name + "#" + tag;
    assert id[1..|id| - 1][|name| - 1] == '#';
    forall k | 0 <= k < |id| ensures id[k] != '"' {
      if k < |name| { assert id[k] == name[k]; }
      else if k > |name| { assert id[k] == tag[k - |name| - 1]; }
    }
  }

  /** The five annotated player lines of the shipped configuration, up to
      the brace that closes the players, map the five ids to the lanes TOP,
      JGL, MID, ADC and SUPP. */
  lemma TeamLanes()
    ensures LaneMap(Some(PlayerLines(TeamPlayers) + "    }")) == map["FXN Artelî#EUW" := "TOP", "cl1ck9r#EUWES" := "JGL", "MarsFlag#Qwä" := "MID",
                                        "ActionBear#EUW" := "ADC", "zeLLay#ff15" := "SUPP"]
  {
    TeamAnnotations();
    var p := TeamPairs;
    assert MappingOf(p[..1]) == map["FXN Artelî#EUW" := "TOP"] by {
      assert p[..1][..0] == [];
    }
    assert MappingOf(p[..2]) == MappingOf(p[..1])["cl1ck9r#EUWES" := "JGL"] by {
      assert p[..2][..1] == p[..1];
    }
    assert MappingOf(p[..3]) == MappingOf(p[..2])["MarsFlag#Qwä" := "MID"] by {
      assert p[..3][..2] == p[..2];
    }
    assert MappingOf(p[..4]) == MappingOf(p[..3])["ActionBear#EUW" := "ADC"] by {
      assert p[..4][..3] == p[..3];
    }
    assert MappingOf(p) == MappingOf(p[..4])["zeLLay#ff15" := "SUPP"];
  }

  const TeamPairs: seq<seq<string>> :=
    [["FXN Artelî#EUW", "TOP"], ["cl1ck9r#EUWES", "JGL"], ["MarsFlag#Qwä", "MID"],
     ["ActionBear#EUW", "ADC"], ["zeLLay#ff15", "SUPP"]]
}
