/** The deterministic helpers of the dashboard generator: champion icon URLs,
    the ranking value and CSS class of a tier, the primary role, the lane
    order of the player list, the team overview's highest rank and trend, and
    what the champion cards, the trend strip and the recent-games list show.

    The generator works on Python dictionaries. A dictionary is modelled by
    its text entries and its numeric entries (integers and floats alike,
    as exact reals), and `d.get(key, default)` by `Str` and `Num`. */
module Dashboard {
  import opened Options
  import opened Text
  import opened Sorting
  import Extraction

  /** A dictionary with text and numeric values. */
  datatype Dict = Dict(text: map<string, string>, numbers: map<string, real>)

  function Str(d: Dict, key: string, default: string): string {
    if key in d.text then d.text[key] else default
  }

  function Num(d: Dict, key: string, default: real): real {
    if key in d.numbers then d.numbers[key] else default
  }

  /** Python's `round` to an integer: to the nearest integer, ties to even. */
  function RoundHalfEven(x: real): (r: int)
    ensures x - 0.5 <= r as real <= x + 0.5
    ensures (r as real == x - 0.5 || r as real == x + 0.5) ==> r % 2 == 0
  {
    var f := x.Floor;
    var d := x - f as real;
    if d < 0.5 then f else if d > 0.5 then f + 1 else if f % 2 == 0 then f else f + 1
  }

  // ---------------------------------------------------------------------------
  // Champion icons
  // ---------------------------------------------------------------------------

  const IconBase := "https://ddragon.leagueoflegends.com/cdn/14.21.1/img/champion/"

  /** Display names whose icon file is named differently, in the order of
      the table. */
  const NameFixes: seq<(string, string)> :=
    [("Lee Sin", "LeeSin"), ("Kai'Sa", "Kaisa"), ("Kha'Zix", "Khazix"), ("Cho'Gath", "Chogath"),
     ("Kog'Maw", "KogMaw"), ("Vel'Koz", "Velkoz"), ("Rek'Sai", "RekSai"), ("LeBlanc", "Leblanc"),
     ("Dr. Mundo", "DrMundo"), ("Jarvan IV", "JarvanIV"), ("Twisted Fate", "TwistedFate"),
     ("Miss Fortune", "MissFortune"), ("Tahm Kench", "TahmKench"), ("Aurelion Sol", "AurelionSol"),
     ("Master Yi", "MasterYi"), ("Xin Zhao", "XinZhao"), ("Nunu & Willump", "Nunu"),
     ("Renata Glasc", "Renata"), ("Wukong", "MonkeyKing"), ("Bel'Veth", "Belveth"), ("K'Sante", "KSante")]

  /** The fix for `name` from the `i`-th entry of the table on. */
  function FixFrom(name: string, i: nat): (r: Option<string>)
    ensures r.Some? ==> exists k :: i <= k < |NameFixes| && NameFixes[k] == (name, r.value)
    ensures r.None? ==> forall k :: i <= k < |NameFixes| ==> NameFixes[k].0 != name
    decreases |NameFixes| - i
  {
    if i >= |NameFixes| then None
    else if NameFixes[i].0 == name then Some(NameFixes[i].1)
    else FixFrom(name, i + 1)
  }

  /** `champion_name_fixes.get(name)`. */
  function FixOf(name: string): Option<string> {
    FixFrom(name, 0)
  }

  predicate AllAlnum(s: string) {
    forall k :: 0 <= k < |s| ==> IsAlnum(s[k])
  }

  /** The icon's file name: the fixed name, or the name itself, without the
      characters that are not letters or digits. */
  function IconFile(name: string): (file: string)
    ensures AllAlnum(file)
  {
    Keep(FixOf(name).GetOr(name), IsAlnum)
  }

  /** `_get_champion_icon_url`. */
  function IconUrl(name: string): string {
    if name == "" then IconBase + "MissingChampion.png" else IconBase + IconFile(name) + ".png"
  }

  /** Every icon URL is the base followed by a purely alphanumeric file name
      and `.png`; an empty name gets the placeholder icon. */
  lemma IconUrlShape(name: string)
    ensures name == "" ==> IconUrl(name) == IconBase + "MissingChampion.png"
    ensures name != "" ==> exists file :: AllAlnum(file) && IconUrl(name) == IconBase + file + ".png"
  {
    if name != "" {
      var file := IconFile(name);
      assert AllAlnum(file) && IconUrl(name) == IconBase + file + ".png";
    }
  }

  /** Every fixed name is already alphanumeric. */
  lemma FixesAlnum()
    ensures forall k :: 0 <= k < |NameFixes| ==> AllAlnum(NameFixes[k].1)
  {
    FixesAlnumFront();
    FixesAlnumMiddle();
    FixesAlnumBack();
  }

  lemma FixesAlnumFront()
    ensures forall k :: 0 <= k < 7 ==> AllAlnum(NameFixes[k].1)
  {
  }

  lemma FixesAlnumMiddle()
    ensures forall k :: 7 <= k < 14 ==> AllAlnum(NameFixes[k].1)
  {
  }

  lemma FixesAlnumBack()
    ensures forall k :: 14 <= k < |NameFixes| ==> AllAlnum(NameFixes[k].1)
  {
  }

  /** A name in the table gets exactly its fixed file; a name outside it that
      is already alphanumeric is its own file. */
  lemma IconOfFixedAndPlain(name: string)
    requires name != ""
    ensures FixOf(name).Some? ==> IconUrl(name) == IconBase + FixOf(name).value + ".png"
    ensures FixOf(name).None? && AllAlnum(name) ==> IconUrl(name) == IconBase + name + ".png"
  {
    FixesAlnum();
  }

  /** "Kai'Sa" loses its apostrophe and Wukong is filed as MonkeyKing. */
  lemma FixExamples()
    ensures FixOf("Kai'Sa") == Some("Kaisa")
    ensures FixOf("Wukong") == Some("MonkeyKing")
  {
    KaisaFix();
    WukongEarly();
    WukongLate();
  }

  lemma KaisaFix()
    ensures FixFrom("Kai'Sa", 0) == Some("Kaisa")
  {
  }

  /** Entries 0 to 8 name other champions than Wukong. */
  lemma WukongEarly()
    ensures FixFrom("Wukong", 0) == FixFrom("Wukong", 9)
  {
    WukongSkip0();
    WukongSkip3();
    WukongSkip6();
  }

  lemma WukongSkip0()
    ensures FixFrom("Wukong", 0) == FixFrom("Wukong", 3)
  {
  }

  lemma WukongSkip3()
    ensures FixFrom("Wukong", 3) == FixFrom("Wukong", 6)
  {
  }

  lemma WukongSkip6()
    ensures FixFrom("Wukong", 6) == FixFrom("Wukong", 9)
  {
  }

  /** Wukong sits at entry 18, and entries 9 to 17 name other champions. */
  lemma WukongLate()
    ensures FixFrom("Wukong", 9) == Some("MonkeyKing")
  {
    assert FixFrom("Wukong", 18) == Some("MonkeyKing");
  }

  // ---------------------------------------------------------------------------
  // Tiers
  // ---------------------------------------------------------------------------

  /** The tiers from the highest down, lower-cased: their values step down by
      1000 from 9000 for Challenger to 0 for Iron. */
  const TierLadder: seq<string> :=
    ["challenger", "grandmaster", "master", "diamond", "emerald", "platinum", "gold", "silver", "bronze", "iron"]

  /** The place of `tier` on the ladder, from the `i`-th rung down. */
  function RungFrom(tier: string, i: nat): (r: Option<nat>)
    ensures r.Some? ==> i <= r.value < |TierLadder| && TierLadder[r.value] == tier
                        && forall k :: i <= k < r.value ==> TierLadder[k] != tier
    ensures r.None? ==> forall k :: i <= k < |TierLadder| ==> TierLadder[k] != tier
    decreases |TierLadder| - i
  {
    if i >= |TierLadder| then None
    else if TierLadder[i] == tier then Some(i)
    else RungFrom(tier, i + 1)
  }

  /** The `tier_values` entry of a lower-cased tier, 0 for any other. */
  function TierBase(tier: string): int {
    match RungFrom(tier, 0)
    case Some(i) => 9000 - 1000 * i
    case None => 0
  }

  /** `_get_rank_value`: the tier's base value plus the LP. */
  function RankValue(player: Dict): real {
    TierBase(Lower(Str(player, "tier", ""))) as real + Num(player, "lp", 0.0)
  }

  /** The ladder's rungs are distinct, so each tier has its one value. */
  lemma LadderDistinct()
    ensures forall i, j :: 0 <= i < j < |TierLadder| ==> TierLadder[i] != TierLadder[j]
  {
  }

  /** The i-th tier from the top is worth 9000 - 1000 * i plus the LP; any
      other tier, such as "Unranked", counts only its LP. */
  lemma RankValueOfTier(player: Dict, i: nat)
    requires i < |TierLadder| && Lower(Str(player, "tier", "")) == TierLadder[i]
    ensures RankValue(player) == (9000 - 1000 * i) as real + Num(player, "lp", 0.0)
  {
    LadderDistinct();
  }

  lemma RankValueUnranked(player: Dict)
    requires Lower(Str(player, "tier", "")) !in TierLadder
    ensures RankValue(player) == Num(player, "lp", 0.0)
  {
  }

  /** With LP between 0 and 1000, a higher tier always has the higher value. */
  lemma HigherTierRanksHigher(p: Dict, q: Dict, i: nat, j: nat)
    requires i < j < |TierLadder|
    requires Lower(Str(p, "tier", "")) == TierLadder[i] && Lower(Str(q, "tier", "")) == TierLadder[j]
    requires 0.0 <= Num(p, "lp", 0.0) && Num(q, "lp", 0.0) < 1000.0
    ensures RankValue(p) > RankValue(q)
  {
    RankValueOfTier(p, i);
    RankValueOfTier(q, j);
  }

  /** `_get_tier_class`: `tier-` and the lower-cased tier for the ten tiers,
      `tier-unranked` for any other. */
  function TierClass(tier: string): string {
    if RungFrom(Lower(tier), 0).Some? then "tier-" + Lower(tier) else "tier-unranked"
  }

  /** The class ignores case, and different tiers get different classes. */
  lemma TierClassDistinct(a: string, b: string)
    ensures SameLetters(a, b) ==> TierClass(a) == TierClass(b)
    ensures Lower(a) in TierLadder && !SameLetters(a, b) ==> TierClass(a) != TierClass(b)
    ensures Lower(a) !in TierLadder <==> TierClass(a) == "tier-unranked"
  {
    if Lower(a) in TierLadder && !SameLetters(a, b) {
      if Lower(b) in TierLadder {
        assert ("tier-" + Lower(a))[5..] == Lower(a);
        assert ("tier-" + Lower(b))[5..] == Lower(b);
      } else {
        assert ("tier-" + Lower(a))[5] != "tier-unranked"[5];
      }
    }
    if Lower(a) !in TierLadder {
    } else {
      assert ("tier-" + Lower(a))[5] != "tier-unranked"[5] || |"tier-" + Lower(a)| != |"tier-unranked"|;
    }
  }

  /** The tier names the scraper stores are on the ladder, whatever their
      case; its default "Unranked" is not. */
  lemma StoredTierNames()
    ensures forall t :: t in Extraction.ApexTiers + Extraction.DivisionTiers ==> Lower(t) in TierLadder
    ensures Lower("Unranked") !in TierLadder
  {
    Extraction.ApexTierNames();
    LowerTiers1();
    LowerTiers2();
    LowerTiers3();
    assert Extraction.DivisionTiers == ["Iron", "Bronze", "Silver", "Gold", "Platinum", "Diamond", "Emerald"];
  }

  lemma LowerTiers1()
    ensures Lower("Iron") == "iron" && Lower("Bronze") == "bronze" && Lower("Silver") == "silver"
  {
    LowerOfSpelling("Iron", "iron");
    LowerOfSpelling("Bronze", "bronze");
    LowerOfSpelling("Silver", "silver");
  }

  lemma LowerTiers2()
    ensures Lower("Gold") == "gold" && Lower("Platinum") == "platinum" && Lower("Diamond") == "diamond"
  {
    LowerOfSpelling("Gold", "gold");
    LowerOfSpelling("Platinum", "platinum");
    LowerOfSpelling("Diamond", "diamond");
  }

  lemma LowerTiers3()
    ensures Lower("Emerald") == "emerald" && Lower("Unranked") == "unranked"
  {
    LowerOfSpelling("Emerald", "emerald");
    LowerOfSpelling("Unranked", "unranked");
  }

  /** Every tier the scraper can record gets its own class, and only a
      player without a tier shows as unranked. */
  lemma ScrapedTierClass(desc: string, riotId: string)
    ensures var t := Extraction.Extracted(desc, riotId).tier;
            && (TierClass(t) == "tier-unranked" <==> t == "Unranked")
            && (t != "Unranked" ==> TierClass(t) == "tier-" + Lower(t))
  {
    var t := Extraction.Extracted(desc, riotId).tier;
    Extraction.ExtractedStanding(desc, riotId);
    StoredTierNames();
    TierClassDistinct(t, t);
    if t != "Unranked" {
      assert t in Extraction.ApexTiers + Extraction.DivisionTiers;
    }
  }

  // ---------------------------------------------------------------------------
  // Primary role
  // ---------------------------------------------------------------------------

  /** The roles in the order they are checked, each with its champions. */
  const RoleChampions: seq<(string, seq<string>)> :=
    [("ADC", ["Jinx", "Kai'Sa", "Jhin", "Ziggs", "Miss Fortune", "Draven"]),
     ("Support", ["Braum", "Bard", "Lulu", "Thresh", "Leona", "Morgana"]),
     ("Jungle", ["Viego", "Graves", "Lee Sin", "Kha'Zix"]),
     ("Mid", ["Syndra", "Akali", "Xerath", "Yasuo", "Zed"]),
     ("Top", ["Urgot", "Gwen", "Ornn", "Sion", "Gnar", "Darius"])]

  /** One of `names` (a champion's `name` entry, `None` when it has none) is
      among `champions`. */
  predicate Hit(names: seq<Option<string>>, champions: seq<string>) {
    exists k :: 0 <= k < |names| && names[k].Some? && names[k].value in champions
  }

  /** The first role, from the `i`-th on, with a champion among `names`. */
  function FirstRole(names: seq<Option<string>>, i: nat): (r: string)
    decreases |RoleChampions| - i
  {
    if i >= |RoleChampions| then "Flex"
    else if Hit(names, RoleChampions[i].1) then RoleChampions[i].0
    else FirstRole(names, i + 1)
  }

  /** `_determine_primary_role` over the champions' names. */
  function PrimaryRole(names: seq<Option<string>>): string {
    if names == [] then "Flex" else FirstRole(Take2(names), 0)
  }

  function Take2<T>(s: seq<T>): (r: seq<T>)
    ensures r == if |s| <= 2 then s else s[..2]
  {
    if |s| <= 2 then s else s[..2]
  }

  /** The role found is that of the first role, in the order ADC, Support,
      Jungle, Mid, Top, that one of the two leading champions plays; "Flex"
      when there is none. */
  lemma {:induction false} FirstRoleWins(names: seq<Option<string>>, i: nat, j: nat)
    requires i <= j
    requires forall m :: i <= m < j && m < |RoleChampions| ==> !Hit(names, RoleChampions[m].1)
    ensures j < |RoleChampions| && Hit(names, RoleChampions[j].1) ==> FirstRole(names, i) == RoleChampions[j].0
    ensures j >= |RoleChampions| ==> FirstRole(names, i) == "Flex"
    decreases j - i
  {
    if i < j && i < |RoleChampions| {
      FirstRoleWins(names, i + 1, j);
    }
  }

  /** Only the first two champions matter, and role priority beats their
      order. */
  lemma PrimaryRoleChoice(names: seq<Option<string>>, j: nat)
    requires names != [] && j < |RoleChampions| && Hit(Take2(names), RoleChampions[j].1)
    requires forall m :: 0 <= m < j ==> !Hit(Take2(names), RoleChampions[m].1)
    ensures PrimaryRole(names) == RoleChampions[j].0
  {
    FirstRoleWins(Take2(names), 0, j);
  }

  /** Without champions, or with no role among the first two, the role is
      "Flex"; and "Flex" is not a role of the table. */
  lemma PrimaryRoleFlex(names: seq<Option<string>>)
    ensures names == [] ==> PrimaryRole(names) == "Flex"
    ensures names != [] && (forall m :: 0 <= m < |RoleChampions| ==> !Hit(Take2(names), RoleChampions[m].1)) ==>
              PrimaryRole(names) == "Flex"
  {
    if names != [] && forall m :: 0 <= m < |RoleChampions| ==> !Hit(Take2(names), RoleChampions[m].1) {
      FirstRoleWins(Take2(names), 0, |RoleChampions|);
    }
  }

  lemma PrimaryRoleExample()
    ensures PrimaryRole([Some("Urgot"), Some("Jinx"), Some("Thresh")]) == "ADC"
  {
    var a := [Some("Urgot"), Some("Jinx"), Some("Thresh")];
    assert Take2(a) == [Some("Urgot"), Some("Jinx")];
    assert Take2(a)[1].value in RoleChampions[0].1;
    PrimaryRoleChoice(a, 0);
  }

  lemma PrimaryRoleExampleTop()
    ensures PrimaryRole([Some("Urgot"), Some("Gwen")]) == "Top"
  {
    var b := [Some("Urgot"), Some("Gwen")];
    assert Take2(b)[0].value in RoleChampions[4].1;
    forall m | 0 <= m < 4 ensures !Hit(Take2(b), RoleChampions[m].1) {
      assert "Urgot" !in RoleChampions[m].1 && "Gwen" !in RoleChampions[m].1;
    }
    PrimaryRoleChoice(b, 4);
  }

  // ---------------------------------------------------------------------------
  // Lane order of the player list
  // ---------------------------------------------------------------------------

  const LaneOrder: map<string, int> := map["TOP" := 1, "JGL" := 2, "MID" := 3, "ADC" := 4, "SUPP" := 5, "FLEX" := 6]

  /** The sort key of a player: its lane's place, 6 for a missing or unknown
      lane. */
  function LaneKey(entry: (string, Dict)): real {
    var lane := Str(entry.1, "lane", "FLEX");
    (if lane in LaneOrder then LaneOrder[lane] else 6) as real
  }

  /** The player list of the page, sorted by lane. */
  function ByLane(players: seq<(string, Dict)>): seq<(string, Dict)> {
    SortBy(players, LaneKey)
  }

  /** The lane sort is a permutation, runs TOP, JGL, MID, ADC, SUPP and then
      everyone else, and keeps players of the same place in their order. */
  lemma ByLaneSorted(players: seq<(string, Dict)>)
    ensures multiset(ByLane(players)) == multiset(players)
    ensures forall i, j :: 0 <= i < j < |players| ==> LaneKey(ByLane(players)[i]) <= LaneKey(ByLane(players)[j])
    ensures forall v :: WithKey(ByLane(players), LaneKey, v) == WithKey(players, LaneKey, v)
  {
    SortPermutes(players, LaneKey);
    SortSorted(players, LaneKey);
    forall v ensures WithKey(ByLane(players), LaneKey, v) == WithKey(players, LaneKey, v) {
      SortStable(players, LaneKey, v);
    }
  }

  /** The lane places run from 1 (TOP) to 6 (FLEX and every other lane). */
  lemma LaneKeyRange(e: (string, Dict))
    ensures 1.0 <= LaneKey(e) <= 6.0
    ensures Str(e.1, "lane", "FLEX") == "TOP" ==> LaneKey(e) == 1.0
    ensures Str(e.1, "lane", "FLEX") !in LaneOrder ==> LaneKey(e) == 6.0
  {
    var lane := Str(e.1, "lane", "FLEX");
    if lane in LaneOrder {
      assert lane in {"TOP", "JGL", "MID", "ADC", "SUPP", "FLEX"};
    }
  }

  // ---------------------------------------------------------------------------
  // Team overview
  // ---------------------------------------------------------------------------

  /** The index `max` returns: the first position of the largest value. */
  function FirstMax(values: seq<real>): (k: nat)
    requires values != []
    ensures k < |values|
    ensures forall j :: 0 <= j < |values| ==> values[j] <= values[k]
    ensures forall j :: 0 <= j < k ==> values[j] < values[k]
  {
    if |values| == 1 then 0
    else
      var k := FirstMax(values[1..]);
      if values[0] >= values[k + 1] then 0 else k + 1
  }

  function SumOf(players: seq<(string, Dict)>, key: string): real {
    if players == [] then 0.0 else SumOf(players[..|players| - 1], key) + Num(players[|players| - 1].1, key, 0.0)
  }

  datatype Trend = Up | Stable | Down

  /** The trend arrow for a team win rate: up from 60, stable from 50. */
  function TrendOf(avgWinRate: int): Trend {
    if avgWinRate >= 60 then Up else if avgWinRate >= 50 then Stable else Down
  }

  datatype Overview = NoPlayers | Overview(avgWinRate: int, highestRank: string, trend: Trend)

  function RankValues(players: seq<(string, Dict)>): (values: seq<real>)
    ensures |values| == |players| && forall j :: 0 <= j < |players| ==> values[j] == RankValue(players[j].1)
  {
    seq(|players|, i requires 0 <= i < |players| => RankValue(players[i].1))
  }

  /** `max(players, key=rank value)`: the first player of the largest ranking
      value. */
  function Highest(players: seq<(string, Dict)>): (k: nat)
    requires players != []
    ensures k < |players|
    ensures forall j :: 0 <= j < |players| ==> RankValue(players[j].1) <= RankValue(players[k].1)
    ensures forall j :: 0 <= j < k ==> RankValue(players[j].1) < RankValue(players[k].1)
  {
    var values := RankValues(players);
    var k := FirstMax(values);
    assert forall j :: 0 <= j < |players| ==> values[j] == RankValue(players[j].1);
    k
  }

  /** The team overview: the team win rate (total wins over total games,
      rounded), the rank of the highest player and the trend of the win rate:
      up from 60, stable from 50, down below. */
  function TeamOverview(players: seq<(string, Dict)>): (o: Overview)
    ensures players == [] <==> o == NoPlayers
    ensures o.Overview? ==> o.highestRank == Str(players[Highest(players)].1, "rank", "Unranked")
    ensures o.Overview? ==> (o.trend == Up <==> o.avgWinRate >= 60) && (o.trend == Down <==> o.avgWinRate < 50)
    ensures o.Overview? ==>
              var exact := SumOf(players, "wins") / AtLeastOne(SumOf(players, "total_games")) * 100.0;
              && exact - 0.5 <= o.avgWinRate as real <= exact + 0.5
              && (o.avgWinRate as real == exact - 0.5 || o.avgWinRate as real == exact + 0.5 ==> o.avgWinRate % 2 == 0)
  {
    if players == [] then NoPlayers
    else
      var games := SumOf(players, "total_games");
      var wins := SumOf(players, "wins");
      var avg := RoundHalfEven(wins / AtLeastOne(games) * 100.0);
      Overview(avg, Str(players[Highest(players)].1, "rank", "Unranked"), TrendOf(avg))
  }

  /** `max(x, 1)`. */
  function AtLeastOne(x: real): (r: real)
    ensures r >= 1.0 && r >= x && (r == x || r == 1.0)
  {
    if x >= 1.0 then x else 1.0
  }

  // ---------------------------------------------------------------------------
  // Cards, trend strip and recent games
  // ---------------------------------------------------------------------------

  /** What a list renders: the placeholder for an empty input, or the items. */
  datatype Rendered<T> = Placeholder | Items(items: seq<T>)

  /** A grade, from best to worst. */
  datatype Grade = Excellent | Good | Average | Poor

  function GradeRank(g: Grade): nat {
    match g
    case Excellent => 3
    case Good => 2
    case Average => 1
    case Poor => 0
  }

  /** The win-rate colour of a champion card. */
  function WinRateGrade(winRate: real): Grade {
    if winRate >= 60.0 then Excellent else if winRate >= 55.0 then Good else if winRate >= 50.0 then Average else Poor
  }

  /** The KDA colour of a champion card. */
  function KdaGrade(kda: real): Grade {
    if kda >= 2.5 then Excellent else if kda >= 2.0 then Good else if kda >= 1.5 then Average else Poor
  }

  /** A better win rate never gets a worse grade, and the bands are 60, 55
      and 50. */
  lemma WinRateGradeMonotone(a: real, b: real)
    requires a <= b
    ensures GradeRank(WinRateGrade(a)) <= GradeRank(WinRateGrade(b))
    ensures WinRateGrade(a) == Excellent <==> a >= 60.0
    ensures WinRateGrade(a) == Poor <==> a < 50.0
  {
  }

  /** What a champion card shows besides the numbers: the name and the two
      grades. */
  datatype Card = Card(name: string, winRateGrade: Grade, kdaGrade: Grade)

  function CardOf(champion: Dict): Card {
    Card(Str(champion, "name", "Unknown"), WinRateGrade(Num(champion, "win_rate", 0.0)),
         KdaGrade(Num(champion, "avg_kda", 0.0)))
  }

  /** `_generate_champion_cards`: a card for each of the first two champions. */
  method ChampionCards(champions: seq<Dict>) returns (r: Rendered<Card>)
    ensures champions == [] <==> r.Placeholder?
    ensures r.Items? ==> |r.items| == (if |champions| < 2 then |champions| else 2)
                         && forall i :: 0 <= i < |r.items| ==> r.items[i] == CardOf(champions[i])
  {
    if champions == [] {
      return Placeholder;
    }
    var cards: seq<Card> := [];
    var shown := Take2(champions);
    for i := 0 to |shown|
      invariant |cards| == i
      invariant forall k :: 0 <= k < i ==> cards[k] == CardOf(champions[k])
    {
      cards := cards + [CardOf(shown[i])];
    }
    r := Items(cards);
  }

  /** One result of the trend strip and whether it shows as a win. */
  datatype Mark = Mark(result: string, win: bool)

  /** `_generate_performance_trend`: the last ten results, 'W' as a win and
      anything else as a loss. */
  method PerformanceTrend(recent: seq<string>) returns (r: Rendered<Mark>)
    ensures recent == [] <==> r.Placeholder?
    ensures r.Items? ==> |r.items| == (if |recent| < 10 then |recent| else 10)
                         && forall i :: 0 <= i < |r.items| ==>
                              r.items[i] == Mark(recent[|recent| - |r.items| + i], recent[|recent| - |r.items| + i] == "W")
  {
    if recent == [] {
      return Placeholder;
    }
    var start := if |recent| < 10 then 0 else |recent| - 10;
    var last := recent[start..];
    var marks: seq<Mark> := [];
    for i := 0 to |last|
      invariant |marks| == i
      invariant forall k :: 0 <= k < i ==> marks[k] == Mark(recent[start + k], recent[start + k] == "W")
    {
      marks := marks + [Mark(last[i], last[i] == "W")];
    }
    r := Items(marks);
  }

  /** What a recent game shows besides the numbers: its result, whether that
      is a win, and the champion, whose icon is `IconUrl` of it. */
  datatype GameView = GameView(result: string, win: bool, champion: string)

  function GameViewOf(game: Dict): GameView {
    var result := Str(game, "result", "L");
    GameView(result, result == "W", Str(game, "champion", "Unknown"))
  }

  /** `_generate_recent_games_html`: the first three games. */
  method RecentGames(games: seq<Dict>) returns (r: Rendered<GameView>)
    ensures games == [] <==> r.Placeholder?
    ensures r.Items? ==> |r.items| == (if |games| < 3 then |games| else 3)
                         && forall i :: 0 <= i < |r.items| ==> r.items[i] == GameViewOf(games[i])
  {
    if games == [] {
      return Placeholder;
    }
    var count := if |games| < 3 then |games| else 3;
    var views: seq<GameView> := [];
    for i := 0 to count
      invariant |views| == i
      invariant forall k :: 0 <= k < i ==> views[k] == GameViewOf(games[k])
    {
      views := views + [GameViewOf(games[i])];
    }
    r := Items(views);
  }

  /** A game without a result shows as a loss, one without a champion as
      "Unknown"; any result other than "W" is a loss. */
  lemma GameDefaults(game: Dict)
    ensures "result" !in game.text ==> GameViewOf(game).result == "L" && !GameViewOf(game).win
    ensures "champion" !in game.text ==> GameViewOf(game).champion == "Unknown"
    ensures GameViewOf(game).win <==> Str(game, "result", "L") == "W"
  {
  }
}
