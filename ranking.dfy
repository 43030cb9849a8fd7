/** The leaderboards of the dashboard: for one statistic, each player's value,
    sorted from the highest down, and the first five shown with a medal and a
    highlight class. */
module Ranking {
  import opened Text
  import opened Sorting
  import opened Dashboard

  /** One row of a leaderboard before it is rendered: the display name and
      the value it is ranked by. */
  datatype Entry = Entry(name: string, value: real)

  /** The name a leaderboard shows: the riot id without its tag. */
  function DisplayName(id: string): (name: string)
    ensures name <= id && '#' !in name
    ensures '#' !in id ==> name == id
    ensures '#' in id ==> id[|name|] == '#'
  {
    if '#' in id then Before(id, '#') else id
  }

  /** The performance score: 0.4 times the win rate, 15 times the KDA and
      0.45 times the kill participation, rounded and capped at 100. */
  function PerformanceScore(player: Dict): (score: int)
    ensures score <= 100
    ensures var raw := 0.4 * Num(player, "win_rate", 0.0) + 15.0 * Num(player, "kda_ratio", 1.0)
                       + 0.45 * Num(player, "kill_participation", 50.0);
            (raw <= 99.5 ==> raw - 0.5 <= score as real <= raw + 0.5) && (raw >= 99.5 ==> score == 100)
  {
    var raw := 0.4 * Num(player, "win_rate", 0.0) + 15.0 * Num(player, "kda_ratio", 1.0)
               + 0.45 * Num(player, "kill_participation", 50.0);
    var rounded := RoundHalfEven(raw);
    if rounded < 100 then rounded else 100
  }

  /** The value a player is ranked by for `key`. */
  function StatOf(player: Dict, key: string): real {
    if key == "rank_value" then RankValue(player)
    else if key == "performance_score" then PerformanceScore(player) as real
    else Num(player, key, 0.0)
  }

  function EntryOf(player: (string, Dict), key: string): Entry {
    Entry(DisplayName(player.0), StatOf(player.1, key))
  }

  /** The entries in the order of the players. */
  function Entries(players: seq<(string, Dict)>, key: string): (r: seq<Entry>)
    ensures |r| == |players|
  {
    seq(|players|, i requires 0 <= i < |players| => EntryOf(players[i], key))
  }

  /** The sort key of `sort(key=value, reverse=True)`: a stable sort in
      descending value is the stable ascending sort on the negated value. */
  function Descending(e: Entry): real {
    -e.value
  }

  /** The entries sorted from the highest value down. */
  function Ranked(players: seq<(string, Dict)>, key: string): (r: seq<Entry>)
    ensures |r| == |players|
  {
    SortBy(Entries(players, key), Descending)
  }

  const Medals: seq<string> := ["\U{1F947}", "\U{1F948}", "\U{1F949}", "4\U{FE0F}\U{20E3}", "5\U{FE0F}\U{20E3}"]

  /** The medal of the `i`-th row: the five medals, then "6.", "7.", ... */
  function Medal(i: nat): string {
    if i < |Medals| then Medals[i] else ShowNat(i + 1) + "."
  }

  /** The statistics whose first three rows are highlighted. */
  const Highlighted: seq<string> := ["win_rate", "kda_ratio", "performance_score"]

  function RankClass(key: string, i: nat): string {
    if key in Highlighted && i == 0 then "rank-gold"
    else if key in Highlighted && i == 1 then "rank-silver"
    else if key in Highlighted && i == 2 then "rank-bronze"
    else "rank-normal"
  }

  /** A rendered row of a leaderboard. */
  datatype Item = Item(medal: string, rankClass: string, player: string, value: real)

  function ItemAt(ranked: seq<Entry>, key: string, i: nat): Item
    requires i < |ranked|
  {
    Item(Medal(i), RankClass(key, i), ranked[i].name, ranked[i].value)
  }

  /** How many rows a leaderboard shows. */
  function Shown(n: nat): (k: nat)
    ensures k <= n && k <= 5 && (k == n || k == 5)
  {
    if n < 5 then n else 5
  }

  /** `_generate_ranking`: the entries in the players' order, sorted, and the
      first five rendered. */
  method Leaderboard(players: seq<(string, Dict)>, key: string) returns (r: Rendered<Item>)
    ensures players == [] <==> r.Placeholder?
    ensures r.Items? ==> |r.items| == Shown(|players|)
                         && forall i :: 0 <= i < |r.items| ==> r.items[i] == ItemAt(Ranked(players, key), key, i)
  {
    if players == [] {
      return Placeholder;
    }
    var entries: seq<Entry> := [];
    for i := 0 to |players|
      invariant |entries| == i
      invariant forall k :: 0 <= k < i ==> entries[k] == EntryOf(players[k], key)
    {
      entries := entries + [EntryOf(players[i], key)];
    }
    assert entries == Entries(players, key);
    var ranked := SortBy(entries, Descending);
    var items: seq<Item> := [];
    for i := 0 to Shown(|ranked|)
      invariant |items| == i
      invariant forall k :: 0 <= k < i ==> items[k] == ItemAt(ranked, key, k)
    {
      items := items + [Item(Medal(i), RankClass(key, i), ranked[i].name, ranked[i].value)];
    }
    r := Items(items);
  }

  // ---------------------------------------------------------------------------
  // What a leaderboard shows
  // ---------------------------------------------------------------------------

  /** The ranking holds every player's entry once, highest value first, and
      players with equal values stay in the order of the team. */
  lemma RankedOrder(players: seq<(string, Dict)>, key: string)
    ensures multiset(Ranked(players, key)) == multiset(Entries(players, key))
    ensures forall i, j :: 0 <= i < j < |players| ==> Ranked(players, key)[i].value >= Ranked(players, key)[j].value
    ensures forall v :: WithKey(Ranked(players, key), Descending, v) == WithKey(Entries(players, key), Descending, v)
  {
    var es := Entries(players, key);
    SortPermutes(es, Descending);
    SortSorted(es, Descending);
    var r := Ranked(players, key);
    forall i, j | 0 <= i < j < |players| ensures r[i].value >= r[j].value {
      assert Descending(r[i]) <= Descending(r[j]);
    }
    forall v ensures WithKey(r, Descending, v) == WithKey(es, Descending, v) {
      SortStable(es, Descending, v);
    }
  }

  /** The first row belongs to a player of the highest value, and every row
      shown is worth at least as much as every player left out. */
  lemma LeaderIsBest(players: seq<(string, Dict)>, key: string)
    requires players != []
    ensures forall p :: p in players ==> StatOf(p.1, key) <= Ranked(players, key)[0].value
    ensures forall i, j :: 0 <= i < Shown(|players|) <= j < |players| ==>
              Ranked(players, key)[j].value <= Ranked(players, key)[i].value
  {
    RankedOrder(players, key);
    var es := Entries(players, key);
    var r := Ranked(players, key);
    forall p | p in players ensures StatOf(p.1, key) <= r[0].value {
      var k :| 0 <= k < |players| && players[k] == p;
      assert es[k] in multiset(r);
      var m :| 0 <= m < |r| && r[m] == es[k];
      assert m == 0 || r[m].value <= r[0].value;
    }
  }

  /** Only the first three rows of the win-rate, KDA and performance
      leaderboards are highlighted, gold, silver and bronze in that order. */
  lemma RankClasses(key: string, i: nat)
    ensures RankClass(key, i) != "rank-normal" <==> key in Highlighted && i < 3
    ensures key in Highlighted ==> RankClass(key, 0) == "rank-gold" && RankClass(key, 1) == "rank-silver"
                                   && RankClass(key, 2) == "rank-bronze"
  {
    if key in Highlighted && i < 3 {
      assert RankClass(key, i)[5] != "rank-normal"[5];
    }
  }

  /** The rows shown get the five medals in order, each a different one. */
  lemma MedalsOfRows(i: nat, j: nat)
    requires i < j < 5
    ensures Medal(i) == Medals[i] && Medal(i) != Medal(j)
  {
    assert Medals[0] != Medals[1] && Medals[0][0] != Medals[2][0] && Medals[1][0] != Medals[2][0];
    assert Medals[3][0] != Medals[4][0];
    assert forall a :: 0 <= a < 3 ==> |Medals[a]| == 1;
    assert |Medals[3]| == 3 && |Medals[4]| == 3;
  }
}
