/** `LoLScraper._extract_player_data`: from the page's meta description text
    to a player record, by three tier patterns tried in order, a win/loss
    pattern and a repeated champion pattern. */
module Extraction {
  import opened Options
  import opened Text
  import opened Regex

  // ---------------------------------------------------------------------------
  // The patterns
  // ---------------------------------------------------------------------------

  /** `\s+(\d+)\s*LP`: the LP number and its mark, which every tier pattern
      ends with. */
  const LpEnd: seq<Piece> := [Run(Space, true, false), Run(Digit, true, true), Run(Space, false, false), NoCase("LP")]

  /** `\s+\d+` (the number captured when `captured`), then `LpEnd`. */
  function NumberedTail(captured: bool): seq<Piece> {
    [Run(Space, true, false), Run(Digit, true, captured)] + LpEnd
  }

  /** `(Master|Grandmaster|Challenger)\s+\d+\s+(\d+)\s*LP`, ignoring case. */
  const ApexPattern: seq<Piece> :=
    [OneOf(["Master", "Grandmaster", "Challenger"])] + NumberedTail(false)

  /** `(Iron|...|Emerald)\s+(\d+)\s+\d+\s+(\d+)\s*LP`, ignoring case: a tier,
      its division, a repeated numeral and the LP. */
  const DuplicatedPattern: seq<Piece> :=
    [OneOf(["Iron", "Bronze", "Silver", "Gold", "Platinum", "Diamond", "Emerald"])]
    + ([Run(Space, true, false), Run(Digit, true, true)] + NumberedTail(false))

  /** `(Iron|...|Emerald)\s+(\d+)\s+(\d+)\s*LP`, ignoring case. */
  const SimplePattern: seq<Piece> :=
    [OneOf(["Iron", "Bronze", "Silver", "Gold", "Platinum", "Diamond", "Emerald"])] + NumberedTail(true)

  /** The tier patterns in the order the loop tries them. */
  const TierPatterns: seq<seq<Piece>> := [ApexPattern, DuplicatedPattern, SimplePattern]

  /** The tier names as the patterns spell them. */
  const ApexTiers: seq<string> := ApexPattern[0].alts
  const DivisionTiers: seq<string> := SimplePattern[0].alts

  /** The lower-case names the tier loop treats as apex tiers. */
  const ApexNames: seq<string> := ["master", "grandmaster", "challenger"]

  /** `(\d+)Win\s+(\d+)Lose`. */
  const WinLossPattern: seq<Piece> :=
    [Run(Digit, true, true), Lit("Win"), Run(Space, true, false), Run(Digit, true, true), Lit("Lose")]

  /** `([A-Za-z\'\.\s&]+)\s*-\s*`, the champion name and its dash. */
  const ChampionName: seq<Piece> :=
    [Run(NameChar, true, true), Run(Space, false, false), Lit("-"), Run(Space, false, false)]

  /** `\s+Win\s+rate\s+(\d+)%`, the champion's win rate. */
  const ChampionRate: seq<Piece> :=
    [Run(Space, true, false), Lit("Win"), Run(Space, true, false), Lit("rate"),
     Run(Space, true, false), Run(Digit, true, true), Lit("%")]

  /** `([A-Za-z\'\.\s&]+)\s*-\s*(\d+)Win\s+(\d+)Lose\s+Win\s+rate\s+(\d+)%`. */
  const ChampionPattern: seq<Piece> := ChampionName + WinLossPattern + ChampionRate

  /** The number of champion entries kept. */
  const MaxChampions := 5

  /** The apex tier names are capitalized words that lower-case to the names
      the tier loop checks. */
  lemma ApexTierNames()
    ensures forall t :: t in ApexTiers ==> Capitalized(t) && Lower(t) in ApexNames
  {
    assert ApexTiers == ["Master", "Grandmaster", "Challenger"];
    LowerOfSpelling("Master", "master");
    LowerOfSpelling("Grandmaster", "grandmaster");
    LowerOfSpelling("Challenger", "challenger");
  }

  /** The other tier names are capitalized words that the tier loop does not
      take for apex tiers; both division patterns list them. */
  lemma DivisionTierNames()
    ensures DuplicatedPattern[0].alts == DivisionTiers
    ensures forall t :: t in DivisionTiers ==> Capitalized(t) && Lower(t) !in ApexNames
  {
    forall t | t in DivisionTiers
      ensures Capitalized(t) && Lower(t) !in ApexNames
    {
      assert Lower(t)[0] == LowerChar(t[0]);
    }
  }

  lemma ApexCaptures()
    ensures |Captured(ApexPattern)| == 2
    ensures Captured(ApexPattern)[0] == ApexPattern[0] && Captured(ApexPattern)[1] == Run(Digit, true, true)
  {
    NumberedTailCaptures(false);
    CapturedOf(ApexPattern[0], NumberedTail(false));
  }

  lemma DuplicatedCaptures()
    ensures |Captured(DuplicatedPattern)| == 3 && Captured(DuplicatedPattern)[0] == DuplicatedPattern[0]
    ensures Captured(DuplicatedPattern)[1] == Captured(DuplicatedPattern)[2] == Run(Digit, true, true)
  {
    var d := Run(Digit, true, true);
    NumberedTailCaptures(false);
    CapturedOf(d, NumberedTail(false));
    CapturedOf(Run(Space, true, false), [d] + NumberedTail(false));
    assert [Run(Space, true, false)] + ([d] + NumberedTail(false)) == [Run(Space, true, false), d] + NumberedTail(false);
    CapturedOf(DuplicatedPattern[0], [Run(Space, true, false), d] + NumberedTail(false));
  }

  lemma SimpleCaptures()
    ensures |Captured(SimplePattern)| == 3 && Captured(SimplePattern)[0] == SimplePattern[0]
    ensures Captured(SimplePattern)[1] == Captured(SimplePattern)[2] == Run(Digit, true, true)
  {
    NumberedTailCaptures(true);
    CapturedOf(SimplePattern[0], NumberedTail(true));
  }

  /** `LpEnd` captures its number ... */
  lemma LpEndCaptures()
    ensures Captured(LpEnd) == [Run(Digit, true, true)]
  {
    CapturedOf(NoCase("LP"), []);
    CapturedOf(Run(Space, false, false), [NoCase("LP")]);
    CapturedOf(Run(Digit, true, true), [Run(Space, false, false), NoCase("LP")]);
    CapturedOf(Run(Space, true, false), LpEnd[1..]);
    assert [Run(Space, true, false)] + LpEnd[1..] == LpEnd;
  }

  /** ... and a numbered tail its first number too when that is captured. */
  lemma NumberedTailCaptures(captured: bool)
    ensures Captured(NumberedTail(captured))
            == (if captured then [Run(Digit, true, true)] else []) + [Run(Digit, true, true)]
  {
    LpEndCaptures();
    CapturedOf(Run(Digit, true, captured), LpEnd);
    CapturedOf(Run(Space, true, false), [Run(Digit, true, captured)] + LpEnd);
    assert [Run(Space, true, false)] + ([Run(Digit, true, captured)] + LpEnd) == NumberedTail(captured);
  }

  lemma WinLossCaptures()
    ensures Captured(WinLossPattern) == [Run(Digit, true, true), Run(Digit, true, true)]
  {
  }

  lemma ChampionCaptures()
    ensures Captured(ChampionName) == [Run(NameChar, true, true)]
    ensures Captured(ChampionPattern)
            == [Run(NameChar, true, true), Run(Digit, true, true), Run(Digit, true, true), Run(Digit, true, true)]
  {
    CapturedAppend(ChampionName, WinLossPattern);
    CapturedAppend(ChampionName + WinLossPattern, ChampionRate);
  }

  /** The `k`-th tier pattern captures its tier, then two numbers (one for an
      apex tier). */
  lemma TierCaptures(k: nat)
    requires k < |TierPatterns|
    ensures |Captured(TierPatterns[k])| == (if k == 0 then 2 else 3)
    ensures Captured(TierPatterns[k])[0] == TierPatterns[k][0]
    ensures Captured(TierPatterns[k])[1] == Run(Digit, true, true)
    ensures k != 0 ==> Captured(TierPatterns[k])[2] == Run(Digit, true, true)
  {
    if k == 0 {
      ApexCaptures();
    } else if k == 1 {
      DuplicatedCaptures();
    } else {
      SimpleCaptures();
    }
  }

  // ---------------------------------------------------------------------------
  // The record
  // ---------------------------------------------------------------------------

  datatype Champion = Champion(name: string, wins: nat, losses: nat, games: nat, winRate: nat)

  /** The player record without its `last_updated` timestamp. */
  datatype PlayerData = PlayerData(
    riotId: string,
    summonerName: string,
    tier: string,
    rank: string,
    lp: nat,
    wins: nat,
    losses: nat,
    totalGames: nat,
    winRate: nat,
    mainChampions: seq<Champion>)

  /** The record every extraction starts from. */
  function Defaults(riotId: string): PlayerData {
    PlayerData(riotId, riotId, "Unranked", "", 0, 0, 0, 0, 0, [])
  }

  /** The three meta tags the description may come from; `None` for a tag
      that is absent, and the `content` attribute (or "") for one that is present. */
  datatype Meta = Meta(description: Option<string>, twitterDescription: Option<string>, ogDescription: Option<string>)

  /** The text the extraction works on. */
  function DescriptionOf(m: Meta): (desc: string)
    // a present description tag wins, even when its content is empty
    ensures m.description.Some? ==> desc == m.description.value
    ensures m.description.None? && m.twitterDescription.Some? ==> desc == m.twitterDescription.value
    ensures m.description.None? && m.twitterDescription.None? ==> desc == m.ogDescription.GetOr("")
  {
    match m.description
    case Some(d) => d
    case None =>
      match m.twitterDescription
      case Some(d) => d
      case None => m.ogDescription.GetOr("")
  }

  // ---------------------------------------------------------------------------
  // Tier, rank and LP
  // ---------------------------------------------------------------------------

  /** Tier, rank label and LP. */
  datatype Standing = Standing(tier: string, rank: string, lp: nat)

  /** What the groups of a tier match set. An apex tier is its own rank and
      its LP is the second group; any other tier is ranked with the division
      as captured, and its LP is the third group. */
  function StandingOf(g: seq<string>): Standing
    requires |g| >= 2 && (Lower(g[0]) !in ApexNames ==> |g| >= 3)
  {
    var tier := Lower(g[0]);
    if tier in ApexNames then Standing(Title(tier), Title(tier), NatValue(g[1]))
    else Standing(Title(tier), Title(tier) + " " + g[1], NatValue(g[2]))
  }

  /** What a match of the `k`-th tier pattern captures: the tier in any case,
      then non-empty digit strings. */
  lemma TierGroups(k: nat, desc: string)
    requires k < |TierPatterns| && Search(TierPatterns[k], desc, 0).Some?
    ensures var g := Search(TierPatterns[k], desc, 0).value.hit.groups;
            && |g| == (if k == 0 then 2 else 3)
            && (Lower(g[0]) in ApexNames <==> k == 0)
            && (k == 0 ==> Title(Lower(g[0])) in ApexTiers)
            && (k != 0 ==> Title(Lower(g[0])) in DivisionTiers)
            && SameLetters(Title(Lower(g[0])), g[0])
            && g[1] != [] && AllDigits(g[1])
            && (k != 0 ==> g[2] != [] && AllDigits(g[2]))
  {
    var ps := TierPatterns[k];
    var f := Search(ps, desc, 0).value;
    var g := f.hit.groups;
    TierCaptures(k);
    MatchGroupsFit(ps, desc, f.start);
    assert GroupFits(Captured(ps)[0], g[0]);
    TierName(k, g[0]);
    assert GroupFits(Run(Digit, true, true), g[1]);
    if k != 0 {
      assert GroupFits(Run(Digit, true, true), g[2]);
    }
  }

  /** Text matched by the tier alternatives of the `k`-th pattern, in any
      case, is one of the tier names of that pattern. */
  lemma TierName(k: nat, x: string)
    requires k < |TierPatterns| && GroupFits(TierPatterns[k][0], x)
    ensures Lower(x) in ApexNames <==> k == 0
    ensures k == 0 ==> Title(Lower(x)) in ApexTiers
    ensures k != 0 ==> Title(Lower(x)) in DivisionTiers
    ensures SameLetters(Title(Lower(x)), x)
  {
    var alts := TierPatterns[k][0].alts;
    assert k == 0 ==> alts == ApexTiers;
    assert k != 0 ==> alts == DivisionTiers by {
      DivisionTierNames();
    }
    var j :| 0 <= j < |alts| && SameLetters(x, alts[j]);
    var t := alts[j];
    assert t in alts;
    if k == 0 {
      ApexTierNames();
    } else {
      DivisionTierNames();
    }
    TitleOfLowerIsCapitalized(x, t);
  }

  /** The standing from the first of the tier patterns, from the `k`-th on,
      that occurs in `desc`. */
  function StandingFrom(desc: string, k: nat): Option<Standing>
    requires k <= |TierPatterns|
    decreases |TierPatterns| - k
  {
    if k == |TierPatterns| then None
    else if Search(TierPatterns[k], desc, 0).Some? then
      TierGroups(k, desc);
      Some(StandingOf(Search(TierPatterns[k], desc, 0).value.hit.groups))
    else StandingFrom(desc, k + 1)
  }

  /** `rank` is `tier`, a space and a non-empty string of digits. */
  predicate Divisioned(tier: string, rank: string) {
    |rank| > |tier| + 1 && rank[..|tier| + 1] == tier + " " && AllDigits(rank[|tier| + 1..])
  }

  /** What a standing can look like: an apex tier ranked as itself, or a
      division tier followed by its division. */
  predicate KnownStanding(st: Standing) {
    || (st.tier in ApexTiers && st.rank == st.tier)
    || (st.tier in DivisionTiers && Divisioned(st.tier, st.rank))
  }

  /** Tier patterns from the `i`-th to before the `j`-th that do not occur are
      passed over. */
  lemma {:induction false} SkipTiers(desc: string, i: nat, j: nat)
    requires i <= j <= |TierPatterns|
    requires forall m :: i <= m < j ==> Search(TierPatterns[m], desc, 0).None?
    ensures StandingFrom(desc, i) == StandingFrom(desc, j)
    decreases j - i
  {
    if i < j {
      SkipTiers(desc, i + 1, j);
    }
  }

  /** The first tier pattern that occurs decides the standing: the tier is
      the pattern's spelling of the matched name, whatever its case; an apex
      tier is its own rank with the number before "LP" as LP; any other tier
      is ranked with its division. */
  lemma FirstTierWins(desc: string, j: nat)
    requires j < |TierPatterns| && Search(TierPatterns[j], desc, 0).Some?
    requires forall m :: 0 <= m < j ==> Search(TierPatterns[m], desc, 0).None?
    ensures var g := Search(TierPatterns[j], desc, 0).value.hit.groups;
            var st := StandingFrom(desc, 0);
            && st.Some? && |g| >= 2
            && SameLetters(st.value.tier, g[0])
            && (j == 0 ==> st.value.tier in ApexTiers && st.value.rank == st.value.tier && st.value.lp == NatValue(g[1]))
            && (j != 0 ==> st.value.tier in DivisionTiers && |g| == 3
                           && st.value.rank == st.value.tier + " " + g[1] && st.value.lp == NatValue(g[2]))
  {
    SkipTiers(desc, 0, j);
    TierGroups(j, desc);
  }

  /** When no tier pattern occurs there is no standing. */
  lemma NoTierNoStanding(desc: string)
    requires forall m :: 0 <= m < |TierPatterns| ==> Search(TierPatterns[m], desc, 0).None?
    ensures StandingFrom(desc, 0).None?
  {
    SkipTiers(desc, 0, |TierPatterns|);
  }

  /** Every standing the tier loop produces has a known shape. */
  lemma {:induction false} StandingShape(desc: string, k: nat)
    requires k <= |TierPatterns|
    ensures StandingFrom(desc, k).Some? ==> KnownStanding(StandingFrom(desc, k).value)
    decreases |TierPatterns| - k
  {
    if k < |TierPatterns| {
      if Search(TierPatterns[k], desc, 0).Some? {
        TierGroups(k, desc);
        var g := Search(TierPatterns[k], desc, 0).value.hit.groups;
        var st := StandingFrom(desc, k).value;
        if k != 0 {
          assert st.rank == st.tier + " " + g[1];
          assert st.rank[..|st.tier| + 1] == st.tier + " ";
          assert st.rank[|st.tier| + 1..] == g[1];
        }
      } else {
        StandingShape(desc, k + 1);
      }
    }
  }

  // ---------------------------------------------------------------------------
  // Wins, losses and win rate
  // ---------------------------------------------------------------------------

  /** Python's `round(num / den)`: the nearest integer, ties to even (the
      quotient is taken exactly here). */
  function RoundRatio(num: nat, den: nat): (r: nat)
    requires den > 0
    ensures -(den as int) <= 2 * (num - r * den) <= den
    ensures 2 * (num - r * den) == den || 2 * (num - r * den) == -(den as int) ==> r % 2 == 0
  {
    var q := num / den;
    var rem := num % den;
    QuotientParts(num, den);
    assert num - q * den == rem && num - (q + 1) * den == rem - den;
    if 2 * rem < den then q
    else if 2 * rem > den then q + 1
    else if q % 2 == 0 then q
    else q + 1
  }

  /** What is left of `num` after taking `num / den` and one more times `den`. */
  lemma QuotientParts(num: nat, den: nat)
    requires den > 0
    ensures num - (num / den) * den == num % den
    ensures num - (num / den + 1) * den == num % den - den
  {
  }

  /** The win rate in percent, 0 for no games. */
  function WinRate(wins: nat, losses: nat): (r: nat)
    ensures r <= 100
    ensures wins + losses == 0 ==> r == 0
    ensures wins + losses > 0 ==> -(wins + losses) <= 2 * (100 * wins - r * (wins + losses)) <= wins + losses
    ensures wins + losses > 0 && 2 * (100 * wins - r * (wins + losses)) in {wins + losses, -(wins + losses)}
            ==> r % 2 == 0
  {
    if wins + losses > 0 then
      var r := RoundRatio(100 * wins, wins + losses);
      assert r <= 100 by { RoundedPercentAtMost(wins, wins + losses, r); }
      r
    else 0
  }

  lemma RoundedPercentAtMost(w: nat, n: nat, r: nat)
    requires 0 < n && w <= n && -(n as int) <= 2 * (100 * w - r * n)
    ensures r <= 100
  {
    var x := 2 * r - 201;
    assert x * n == 2 * (r * n) - 201 * n;
    assert x * n <= 0;
    ProductSign(x, n);
  }

  lemma ProductSign(x: int, n: int)
    requires n > 0 && x * n <= 0
    ensures x <= 0
  {
  }

  /** Wins and losses of the overall record. */
  datatype Record = Record(wins: nat, losses: nat)

  /** The leftmost `NWin NLose` in `desc`. */
  function RecordOf(desc: string): (r: Option<Record>)
  {
    var m := Search(WinLossPattern, desc, 0);
    if m.None? then None
    else
      WinLossCaptures();
      var g := m.value.hit.groups;
      Some(Record(NatValue(g[0]), NatValue(g[1])))
  }

  // ---------------------------------------------------------------------------
  // Champions
  // ---------------------------------------------------------------------------

  /** The entry built from the four groups of a champion match. */
  function ChampionOf(g: seq<string>): (c: Champion)
    requires |g| == 4
    ensures c.games == c.wins + c.losses && Stripped(c.name)
  {
    Champion(Strip(g[0]), NatValue(g[1]), NatValue(g[2]), NatValue(g[1]) + NatValue(g[2]), NatValue(g[3]))
  }

  /** The entries of the champion matches, in order. */
  function ChampionsOf(ms: seq<seq<string>>): seq<Champion>
    requires forall m :: 0 <= m < |ms| ==> |ms[m]| == 4
  {
    if ms == [] then [] else ChampionsOf(ms[..|ms| - 1]) + [ChampionOf(ms[|ms| - 1])]
  }

  /** No whitespace at either end. */
  predicate Stripped(n: string) {
    n == [] || (!IsSpace(n[0]) && !IsSpace(n[|n| - 1]))
  }

  /** The `i`-th entry comes from the `i`-th match. */
  lemma {:induction false} ChampionsOfEntries(ms: seq<seq<string>>)
    requires forall m :: 0 <= m < |ms| ==> |ms[m]| == 4
    ensures |ChampionsOf(ms)| == |ms|
    ensures forall i :: 0 <= i < |ms| ==> ChampionsOf(ms)[i] == ChampionOf(ms[i])
  {
    if ms != [] {
      var front := ms[..|ms| - 1];
      ChampionsOfEntries(front);
      var r := ChampionsOf(ms);
      assert r == ChampionsOf(front) + [ChampionOf(ms[|ms| - 1])];
      forall i | 0 <= i < |ms| ensures r[i] == ChampionOf(ms[i]) {
        if i < |ms| - 1 {
          assert front[i] == ms[i];
        }
      }
    }
  }

  lemma ChampionsOfSnoc(ms: seq<seq<string>>, i: nat)
    requires i < |ms| && forall m :: 0 <= m < |ms| ==> |ms[m]| == 4
    ensures ChampionsOf(ms[..i + 1]) == ChampionsOf(ms[..i]) + [ChampionOf(ms[i])]
  {
    assert ms[..i + 1][..i] == ms[..i];
  }

  /** The groups of every champion match in `desc`. */
  function ChampionMatches(desc: string): (ms: seq<seq<string>>)
    ensures forall m :: 0 <= m < |ms| ==> |ms[m]| == 4
  {
    ChampionCaptures();
    FindAll(ChampionPattern, desc, 0)
  }

  /** Python's `s[:n]`. */
  function Take<T>(s: seq<T>, n: nat): (r: seq<T>)
    ensures |r| <= n && r <= s
    ensures |s| <= n ==> r == s
  {
    if |s| <= n then s else s[..n]
  }

  // ---------------------------------------------------------------------------
  // The whole extraction
  // ---------------------------------------------------------------------------

  /** The defaults with a standing, if one was found. */
  function Ranked(d: PlayerData, st: Option<Standing>): PlayerData {
    if st.None? then d else d.(tier := st.value.tier, rank := st.value.rank, lp := st.value.lp)
  }

  /** A record with the overall wins and losses, if they were found. */
  function Counted(d: PlayerData, r: Option<Record>): PlayerData {
    if r.None? then d
    else
      var w := r.value.wins;
      var l := r.value.losses;
      d.(wins := w, losses := l, totalGames := w + l, winRate := WinRate(w, l))
  }

  /** The record `_extract_player_data` returns for description `desc`. */
  function Extracted(desc: string, riotId: string): PlayerData {
    if desc == "" then Defaults(riotId)
    else
      var d := Counted(Ranked(Defaults(riotId), StandingFrom(desc, 0)), RecordOf(desc));
      d.(mainChampions := Take(ChampionsOf(ChampionMatches(desc)), MaxChampions))
  }

  /** The tier stays "Unranked", with no rank and no LP, unless a tier
      pattern occurs; otherwise the standing has a known shape. The id is
      the summoner name whatever the description says. */
  lemma ExtractedStanding(desc: string, riotId: string)
    ensures var r := Extracted(desc, riotId);
            && r.riotId == riotId && r.summonerName == riotId
            && (r.tier == "Unranked" <==> desc == "" || StandingFrom(desc, 0).None?)
            && (r.tier == "Unranked" ==> r.rank == "" && r.lp == 0)
            && (r.tier != "Unranked" ==> KnownStanding(Standing(r.tier, r.rank, r.lp)))
  {
    if desc != "" {
      StandingShape(desc, 0);
    }
  }

  /** The record fields stay 0 unless `NWin NLose` occurs; the total is the
      sum and the win rate is `WinRate` of the wins and losses, the rounded
      percentage. */
  lemma ExtractedRecord(desc: string, riotId: string)
    ensures var r := Extracted(desc, riotId);
            && (desc == "" || RecordOf(desc).None? ==> r.wins == r.losses == r.totalGames == r.winRate == 0)
            && (desc != "" && RecordOf(desc).Some? ==>
                  r.wins == RecordOf(desc).value.wins && r.losses == RecordOf(desc).value.losses)
            && r.totalGames == r.wins + r.losses && r.winRate <= 100
            && (r.totalGames == 0 ==> r.winRate == 0)
            && r.winRate == WinRate(r.wins, r.losses)
  {
  }

  /** At most five entries are kept: those of the first champion matches,
      in order (see `ChampionsOfEntries`), each with its games as wins plus losses and its name stripped. */
  lemma ExtractedChampions(desc: string, riotId: string)
    ensures var r := Extracted(desc, riotId);
            && |r.mainChampions| <= MaxChampions
            && (desc == "" ==> r.mainChampions == [])
            && (desc != "" ==> r.mainChampions <= ChampionsOf(ChampionMatches(desc)))
            && (desc != "" ==> |r.mainChampions| == if |ChampionMatches(desc)| < MaxChampions then |ChampionMatches(desc)| else MaxChampions)
            && forall c :: c in r.mainChampions ==> c.games == c.wins + c.losses && Stripped(c.name)
  {
    if desc != "" {
      ChampionsOfEntries(ChampionMatches(desc));
    }
  }

  /** A champion clause holds a `NWin NLose` match of its own, right after
      the champion's name, with the clause's wins and losses as groups. */
  lemma ChampionMatchWinLoss(desc: string, k: nat)
    requires k <= |desc| && MatchAt(ChampionPattern, desc, k).Some?
    ensures MatchAt(ChampionName, desc, k).Some?
    ensures var wl := MatchAt(WinLossPattern, desc, MatchAt(ChampionName, desc, k).value.end);
            var g := MatchAt(ChampionPattern, desc, k).value.groups;
            wl.Some? && |g| == 4 && wl.value.groups == [g[1], g[2]]
  {
    ChampionCaptures();
    WinLossCaptures();
    MatchAtSplit(ChampionName + WinLossPattern, ChampionRate, desc, k);
    MatchAtSplit(ChampionName, WinLossPattern, desc, k);
    var name := MatchAt(ChampionName, desc, k).value;
    var wl := MatchAt(WinLossPattern, desc, name.end).value;
    var rate := MatchAt(ChampionRate, desc, MatchAt(ChampionName + WinLossPattern, desc, k).value.end).value;
    assert MatchAt(ChampionPattern, desc, k).value.groups == name.groups + wl.groups + rate.groups;
  }

  /** The same for the first champion clause of a description. */
  lemma ChampionClauseWinLoss(desc: string)
    requires ChampionMatches(desc) != []
    ensures Search(ChampionPattern, desc, 0).Some?
    ensures MatchAt(ChampionName, desc, Search(ChampionPattern, desc, 0).value.start).Some?
    ensures var wlStart := MatchAt(ChampionName, desc, Search(ChampionPattern, desc, 0).value.start).value.end;
            var g := ChampionMatches(desc)[0];
            && MatchAt(WinLossPattern, desc, wlStart).Some?
            && MatchAt(WinLossPattern, desc, wlStart).value.groups == [g[1], g[2]]
  {
    ChampionCaptures();
    var f := Search(ChampionPattern, desc, 0).value;
    ChampionMatchWinLoss(desc, f.start);
    assert ChampionMatches(desc)[0] == f.hit.groups;
  }

  /** The overall record is searched for anywhere, so a champion clause's own
      `NWin NLose` is a candidate: a description with a champion clause always
      yields a record, found no later than that clause's wins, and when no
      `NWin NLose` comes earlier the record is the first champion's. */
  lemma ChampionClauseRecord(desc: string)
    requires ChampionMatches(desc) != []
    ensures Search(ChampionPattern, desc, 0).Some?
    ensures MatchAt(ChampionName, desc, Search(ChampionPattern, desc, 0).value.start).Some?
    ensures var wlStart := MatchAt(ChampionName, desc, Search(ChampionPattern, desc, 0).value.start).value.end;
            var first := ChampionOf(ChampionMatches(desc)[0]);
            && RecordOf(desc).Some?
            && Search(WinLossPattern, desc, 0).value.start <= wlStart
            && (Search(WinLossPattern, desc, 0).value.start == wlStart ==>
                  RecordOf(desc).value == Record(first.wins, first.losses))
  {
    ChampionClauseWinLoss(desc);
    WinLossCaptures();
  }

  /** The groups of "gold 3 45lp": the tier is title-cased whatever the case
      of the text. */
  lemma LowerCaseExample()
    ensures Lower("gold") == "gold" && StandingOf(["gold", "3", "45"]) == Standing("Gold", "Gold 3", 45)
  {
    LowerOfSpelling("gold", "gold");
    TitleOfLowerIsCapitalized("gold", "Gold");
    assert "Gold" + " " + "3" == "Gold 3";
    assert NatValue("45") == 45;
  }

  /** The tier loop of `_extract_player_data`: try the patterns in order and
      stop at the first one that occurs. */
  method MatchTier(desc: string) returns (st: Option<Standing>)
    ensures st == StandingFrom(desc, 0)
  {
    st := None;
    var k := 0;
    while k < |TierPatterns|
      invariant k <= |TierPatterns|
      invariant StandingFrom(desc, k) == StandingFrom(desc, 0)
      invariant st == None
    {
      var m := Search(TierPatterns[k], desc, 0);
      if m.Some? {
        TierGroups(k, desc);
        var g := m.value.hit.groups;
        var tier := Lower(g[0]);
        if tier in ApexNames {
          st := Some(Standing(Title(tier), Title(tier), NatValue(g[1])));
        } else {
          var division := g[1];
          st := Some(Standing(Title(tier), Title(tier) + " " + division, NatValue(g[2])));
        }
        return;
      }
      k := k + 1;
    }
  }

  /** The champion loop of `_extract_player_data`: one entry per match, in order. */
  method ChampionEntries(found: seq<seq<string>>) returns (champions: seq<Champion>)
    requires forall m :: 0 <= m < |found| ==> |found[m]| == 4
    ensures champions == ChampionsOf(found)
  {
    champions := [];
    for i := 0 to |found|
      invariant champions == ChampionsOf(found[..i])
    {
      ChampionsOfSnoc(found, i);
      champions := champions + [ChampionOf(found[i])];
    }
    assert found[..|found|] == found;
  }

  /** `_extract_player_data` after the meta lookup: the defaults, then the
      first tier pattern that matches, then the overall record, then the
      first five champion entries. */
  method ExtractPlayerData(meta: Meta, riotId: string) returns (data: PlayerData)
    ensures data == Extracted(DescriptionOf(meta), riotId)
  {
    data := Defaults(riotId);
    var desc := DescriptionOf(meta);
    if desc != "" {
      var st := MatchTier(desc);
      if st.Some? {
        data := data.(tier := st.value.tier, rank := st.value.rank, lp := st.value.lp);
      }
      ghost var ranked := data;
      assert ranked == Ranked(Defaults(riotId), StandingFrom(desc, 0));
      var wl := Search(WinLossPattern, desc, 0);
      if wl.Some? {
        WinLossCaptures();
        var wins := NatValue(wl.value.hit.groups[0]);
        var losses := NatValue(wl.value.hit.groups[1]);
        data := data.(wins := wins, losses := losses, totalGames := wins + losses,
                      winRate := WinRate(wins, losses));
      }
      assert data == Counted(ranked, RecordOf(desc));
      var champions := ChampionEntries(ChampionMatches(desc));
      data := data.(mainChampions := Take(champions, MaxChampions));
    }
  }
}
