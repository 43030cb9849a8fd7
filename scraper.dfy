/** Fetching one player's profile and scraping the whole team.

    The network is a parameter: `server(url)(k)` is what the `k`-th request
    for `url` yields, either an HTTP reply carrying the page's meta tags or a
    request exception. Percent-encoding of the URL parts (`quote`) is a
    parameter as well. */
module Scraper {
  import opened Options
  import opened Text
  import opened Extraction

  // ---------------------------------------------------------------------------
  // Region and riot id
  // ---------------------------------------------------------------------------

  /** The Riot platform names the scraper knows, with their op.gg names. */
  const RegionTable: map<string, string> :=
    map["euw1" := "euw", "eun1" := "eune", "na1" := "na", "kr" := "kr",
        "jp1" := "jp", "br1" := "br", "la1" := "lan", "la2" := "las",
        "oc1" := "oce", "tr1" := "tr", "ru" := "ru"]

  /** The op.gg region for a configured region: the lower-cased region looked
      up in the table, or the lower-cased region itself. */
  function OpggRegion(region: string): string
  {
    var key := Lower(region);
    if key in RegionTable then RegionTable[key] else key
  }

  /** A region written in any case maps to the same op.gg region. */
  lemma RegionIgnoresCase(a: string, b: string)
    requires SameLetters(a, b)
    ensures OpggRegion(a) == OpggRegion(b)
  {
  }

  /** The op.gg region never holds an upper-case letter. */
  lemma RegionIsLower(region: string)
    ensures forall k :: 0 <= k < |OpggRegion(region)| ==> !IsUpper(OpggRegion(region)[k])
  {
    var key := Lower(region);
    if key in RegionTable {
      assert key in {"euw1", "eun1", "na1", "kr", "jp1", "br1", "la1", "la2", "oc1", "tr1", "ru"};
    }
  }

  /** Mapping twice maps once: every op.gg name is either not a platform name
      or (`kr`, `ru`) a platform name mapped to itself. */
  lemma {:induction false} RegionIdempotent(region: string)
    ensures OpggRegion(OpggRegion(region)) == OpggRegion(region)
  {
    var r := OpggRegion(region);
    RegionIsLower(region);
    LowerOfLower(r);
    if Lower(region) in RegionTable {
      var key := Lower(region);
      assert key in {"euw1", "eun1", "na1", "kr", "jp1", "br1", "la1", "la2", "oc1", "tr1", "ru"};
      assert r in {"euw", "eune", "na", "kr", "jp", "br", "lan", "las", "oce", "tr", "ru"};
      assert r !in RegionTable || RegionTable[r] == r by {
        if r in RegionTable {
          PlatformNames(r);
        }
      }
    }
  }

  /** Lower-casing text without upper-case letters changes nothing. */
  lemma LowerOfLower(s: string)
    requires forall k :: 0 <= k < |s| ==> !IsUpper(s[k])
    ensures Lower(s) == s
  {
  }

  /** Of the op.gg names, only `kr` and `ru` are platform names too. */
  lemma PlatformNames(r: string)
    requires r in {"euw", "eune", "na", "kr", "jp", "br", "lan", "las", "oce", "tr", "ru"}
    requires r in RegionTable
    ensures r == "kr" || r == "ru"
  {
    assert r in {"euw1", "eun1", "na1", "kr", "jp1", "br1", "la1", "la2", "oc1", "tr1", "ru"};
  }

  /** A riot id's two halves. */
  datatype RiotId = RiotId(gameName: string, tagLine: string)

  /** `riot_id.split('#', 1)`, refused (`None`) when there is no '#'. */
  function SplitRiotId(id: string): (r: Option<RiotId>)
    ensures r.None? <==> '#' !in id
    ensures r.Some? ==> r.value.gameName + "#" + r.value.tagLine == id && '#' !in r.value.gameName
  {
    if '#' in id then Some(RiotId(Before(id, '#'), After(id, '#'))) else None
  }

  /** The profile page of a player. */
  function ProfileUrl(region: string, quote: string -> string, id: RiotId): string
  {
    "https://op.gg/lol/summoners/" + region + "/" + quote(id.gameName) + "-" + quote(id.tagLine)
  }

  // ---------------------------------------------------------------------------
  // Requests with retries
  // ---------------------------------------------------------------------------

  /** What one request yields: a reply with its status code and the meta tags
      of its page, or a request exception. */
  datatype Response = Reply(status: int, page: Meta) | Failed

  const MaxRetries: nat := 3

  /** A reply that ends the retry loop: 200 (found) or 404 (not found). */
  predicate Decisive(r: Response) {
    r.Reply? && (r.status == 200 || r.status == 404)
  }

  /** The first attempt, from `from` on and within the retry budget, whose
      reply is decisive. */
  function FirstDecisive(answers: nat -> Response, from: nat): (k: Option<nat>)
    ensures k.Some? ==> from <= k.value < MaxRetries && Decisive(answers(k.value))
                        && forall j :: from <= j < k.value ==> !Decisive(answers(j))
    ensures k.None? ==> forall j :: from <= j < MaxRetries ==> !Decisive(answers(j))
    decreases MaxRetries - from
  {
    if from >= MaxRetries then None
    else if Decisive(answers(from)) then Some(from)
    else FirstDecisive(answers, from + 1)
  }

  /** The page obtained and the number of requests made. */
  datatype Fetch = Fetch(page: Option<Meta>, requests: nat)

  /** The outcome of the retry loop: decided by the first decisive reply, and
      no page when no attempt is decisive. */
  function Fetched(answers: nat -> Response): Fetch {
    match FirstDecisive(answers, 0)
    case None => Fetch(None, MaxRetries)
    case Some(k) => Fetch(if answers(k).status == 200 then Some(answers(k).page) else None, k + 1)
  }

  /** The retry loop of `get_player_stats`: a 200 stops it, a 404 gives up at
      once, anything else is retried, and an exception on the last attempt
      propagates to the handler that gives up. After the loop, anything but a
      200 gives up. */
  method FetchProfile(answers: nat -> Response) returns (page: Option<Meta>, requests: nat)
    ensures page == Fetched(answers).page && requests == Fetched(answers).requests
  {
    var response: Option<Response> := None;
    requests := 0;
    var attempt := 0;
    while attempt < MaxRetries
      invariant attempt <= MaxRetries && requests == attempt
      invariant forall j :: 0 <= j < attempt ==> !Decisive(answers(j))
      invariant response.Some? ==> response.value.Reply? && response.value.status != 200
    {
      var r := answers(attempt);
      requests := requests + 1;
      if r.Reply? {
        response := Some(r);
        if r.status == 200 {
          break;
        } else if r.status == 404 {
          return None, requests;
        }
      } else if attempt == MaxRetries - 1 {
        return None, requests;
      }
      attempt := attempt + 1;
    }
    if response.Some? && response.value.status == 200 {
      page := Some(response.value.page);
    } else {
      page := None;
    }
  }

  /** At least one and at most three requests are made. */
  lemma FetchBudget(answers: nat -> Response)
    ensures 1 <= Fetched(answers).requests <= MaxRetries
  {
  }

  /** A 404 after only undecided attempts gives up with no further request. */
  lemma NotFoundStops(answers: nat -> Response, k: nat)
    requires k < MaxRetries && answers(k).Reply? && answers(k).status == 404
    requires forall j :: 0 <= j < k ==> !Decisive(answers(j))
    ensures Fetched(answers) == Fetch(None, k + 1)
  {
  }

  /** A 200 after only undecided attempts yields its page. */
  lemma FoundStops(answers: nat -> Response, k: nat)
    requires k < MaxRetries && answers(k).Reply? && answers(k).status == 200
    requires forall j :: 0 <= j < k ==> !Decisive(answers(j))
    ensures Fetched(answers) == Fetch(Some(answers(k).page), k + 1)
  {
  }

  /** A page comes only from a 200 within the retry budget. */
  lemma PageOnlyFromOk(answers: nat -> Response)
    requires Fetched(answers).page.Some?
    ensures exists k :: 0 <= k < MaxRetries && answers(k) == Reply(200, Fetched(answers).page.value)
  {
    var k := FirstDecisive(answers, 0).value;
    assert answers(k) == Reply(200, Fetched(answers).page.value);
  }

  // ---------------------------------------------------------------------------
  // One player
  // ---------------------------------------------------------------------------

  /** The extracted record with the player's lane. */
  datatype PlayerStats = PlayerStats(data: PlayerData, lane: string)

  /** `lane_mapping.get(riot_id, 'FLEX')`. */
  function LaneOf(lanes: map<string, string>, id: string): string
  {
    if id in lanes then lanes[id] else "FLEX"
  }

  /** The stats `get_player_stats` returns for a riot id and a region. */
  function PlayerStatsOf(riotId: string, region: string, lanes: map<string, string>,
                         quote: string -> string, server: string -> nat -> Response): Option<PlayerStats>
  {
    match SplitRiotId(riotId)
    case None => None
    case Some(id) =>
      var fetch := Fetched(server(ProfileUrl(OpggRegion(region), quote, id)));
      match fetch.page
      case None => None
      case Some(meta) =>
        var data := Extracted(DescriptionOf(meta), riotId);
        if data.summonerName != "" then Some(PlayerStats(data, LaneOf(lanes, riotId))) else None
  }

  /** `get_player_stats`: check and split the id, fetch the profile, extract
      the record and attach the lane. */
  method GetPlayerStats(riotId: string, region: string, lanes: map<string, string>,
                        quote: string -> string, server: string -> nat -> Response)
    returns (stats: Option<PlayerStats>, requests: nat)
    ensures stats == PlayerStatsOf(riotId, region, lanes, quote, server)
    ensures '#' !in riotId ==> requests == 0
    ensures requests <= MaxRetries
  {
    var id := SplitRiotId(riotId);
    if id.None? {
      return None, 0;
    }
    var url := ProfileUrl(OpggRegion(region), quote, id.value);
    var page;
    page, requests := FetchProfile(server(url));
    FetchBudget(server(url));
    if page.None? {
      return None, requests;
    }
    var data := ExtractPlayerData(page.value, riotId);
    if data.summonerName != "" {
      stats := Some(PlayerStats(data, LaneOf(lanes, riotId)));
    } else {
      stats := None;
    }
  }

  /** A player is returned exactly when the id has a '#' and the profile was
      fetched; the record is the one extracted from the page, under the id
      as given, and the lane is the mapped one or FLEX. */
  lemma PlayerStatsShape(riotId: string, region: string, lanes: map<string, string>,
                         quote: string -> string, server: string -> nat -> Response)
    ensures var st := PlayerStatsOf(riotId, region, lanes, quote, server);
            && (st.Some? <==>
                  '#' in riotId
                  && Fetched(server(ProfileUrl(OpggRegion(region), quote, SplitRiotId(riotId).value))).page.Some?)
            && (st.Some? ==> st.value.data.riotId == riotId && st.value.data.summonerName == riotId
                             && st.value.lane == LaneOf(lanes, riotId))
  {
    var id := SplitRiotId(riotId);
    if id.Some? {
      var fetch := Fetched(server(ProfileUrl(OpggRegion(region), quote, id.value)));
      if fetch.page.Some? {
        ExtractedStanding(DescriptionOf(fetch.page.value), riotId);
      }
    }
  }

  // ---------------------------------------------------------------------------
  // The team
  // ---------------------------------------------------------------------------

  /** A configured player: the riot id and the region setting, if any. */
  datatype PlayerConfig = PlayerConfig(riotId: string, region: Option<string>)

  /** The team configuration; an absent `players` entry is an empty list. */
  datatype TeamConfig = TeamConfig(teamName: Option<string>, players: seq<PlayerConfig>)

  /** The players of a dictionary: no riot id occurs twice. */
  predicate DistinctIds(ps: seq<PlayerConfig>) {
    forall i, j :: 0 <= i < j < |ps| ==> ps[i].riotId != ps[j].riotId
  }

  /** The scraped team without its `last_updated` timestamp; `players` lists
      the stored entries in insertion order. */
  datatype TeamData = TeamData(teamName: string, players: seq<(string, PlayerStats)>,
                               totalPlayers: nat, successCount: nat)

  /** The stats of one configured player, with `euw1` for a missing region. */
  function ConfiguredStats(p: PlayerConfig, lanes: map<string, string>,
                           quote: string -> string, server: string -> nat -> Response): Option<PlayerStats>
  {
    PlayerStatsOf(p.riotId, p.region.GetOr("euw1"), lanes, quote, server)
  }

  /** The entries stored for the players, in order, when `scrape` gives each
      player's stats: those with stats. */
  function Stored(ps: seq<PlayerConfig>, scrape: PlayerConfig -> Option<PlayerStats>): (r: seq<(string, PlayerStats)>)
    ensures |r| <= |ps|
  {
    if ps == [] then []
    else
      var front := Stored(ps[..|ps| - 1], scrape);
      var last := ps[|ps| - 1];
      match scrape(last)
      case None => front
      case Some(st) => front + [(last.riotId, st)]
  }

  /** `scrape_team`: every player is fetched in turn; one that yields nothing
      is skipped and the others go on. */
  method ScrapeTeam(config: TeamConfig, lanes: map<string, string>,
                    quote: string -> string, server: string -> nat -> Response)
    returns (team: TeamData)
    requires DistinctIds(config.players)
    ensures team.teamName == config.teamName.GetOr("LoL Team")
    ensures team.totalPlayers == |config.players|
    ensures team.players == Stored(config.players, p => ConfiguredStats(p, lanes, quote, server))
    ensures team.successCount == |team.players|
  {
    var players := config.players;
    ghost var scrape := p => ConfiguredStats(p, lanes, quote, server);
    var stored: seq<(string, PlayerStats)> := [];
    var successCount := 0;
    for i := 0 to |players|
      invariant stored == Stored(players[..i], scrape)
      invariant successCount == |stored|
    {
      var region := players[i].region.GetOr("euw1");
      var playerData, _ := GetPlayerStats(players[i].riotId, region, lanes, quote, server);
      assert playerData == scrape(players[i]);
      assert players[..i + 1][..i] == players[..i];
      if playerData.Some? {
        stored := stored + [(players[i].riotId, playerData.value)];
        successCount := successCount + 1;
      }
    }
    assert players[..|players|] == players;
    team := TeamData(config.teamName.GetOr("LoL Team"), stored, |players|, successCount);
  }

  /** Every player with stats is stored under its own id, whatever happens to
      the others. */
  lemma {:induction false} StoredComplete(ps: seq<PlayerConfig>, scrape: PlayerConfig -> Option<PlayerStats>)
    ensures forall i :: 0 <= i < |ps| && scrape(ps[i]).Some? ==>
              (ps[i].riotId, scrape(ps[i]).value) in Stored(ps, scrape)
    decreases |ps|
  {
    if ps != [] {
      var front := ps[..|ps| - 1];
      StoredComplete(front, scrape);
      forall i | 0 <= i < |front| ensures front[i] == ps[i] { }
    }
  }

  /** Every stored entry is a configured player with stats. */
  lemma {:induction false} StoredSound(ps: seq<PlayerConfig>, scrape: PlayerConfig -> Option<PlayerStats>)
    ensures forall e :: e in Stored(ps, scrape) ==>
              exists i :: 0 <= i < |ps| && ps[i].riotId == e.0 && scrape(ps[i]) == Some(e.1)
    decreases |ps|
  {
    if ps != [] {
      var front := ps[..|ps| - 1];
      StoredSound(front, scrape);
      forall e | e in Stored(ps, scrape)
        ensures exists i :: 0 <= i < |ps| && ps[i].riotId == e.0 && scrape(ps[i]) == Some(e.1)
      {
        if e in Stored(front, scrape) {
          var i :| 0 <= i < |front| && front[i].riotId == e.0 && scrape(front[i]) == Some(e.1);
          assert ps[i] == front[i];
        } else {
          assert ps[|ps| - 1].riotId == e.0;
        }
      }
    }
  }

  /** No id is stored twice, so the count of successes is the number of
      stored players. */
  lemma {:induction false} StoredDistinct(ps: seq<PlayerConfig>, scrape: PlayerConfig -> Option<PlayerStats>)
    requires DistinctIds(ps)
    ensures forall a, b :: 0 <= a < b < |Stored(ps, scrape)| ==> Stored(ps, scrape)[a].0 != Stored(ps, scrape)[b].0
    decreases |ps|
  {
    if ps != [] {
      var front := ps[..|ps| - 1];
      assert DistinctIds(front);
      StoredDistinct(front, scrape);
      StoredSound(front, scrape);
      var fr := Stored(front, scrape);
      forall a | 0 <= a < |fr|
        ensures fr[a].0 != ps[|ps| - 1].riotId
      {
        var i :| 0 <= i < |front| && front[i].riotId == fr[a].0 && scrape(front[i]) == Some(fr[a].1);
        assert ps[i] == front[i];
      }
      var last := ps[|ps| - 1];
      if scrape(last).Some? {
        var r := Stored(ps, scrape);
        assert r == fr + [(last.riotId, scrape(last).value)];
        forall a, b | 0 <= a < b < |r| ensures r[a].0 != r[b].0 {
          assert r[a] == fr[a];
          if b < |fr| {
            assert r[b] == fr[b];
          }
        }
      } else {
        assert Stored(ps, scrape) == fr;
      }
    }
  }

  /** Every player stored by the scrape carries the mapped lane, or FLEX. */
  lemma StoredLanes(ps: seq<PlayerConfig>, lanes: map<string, string>,
                    quote: string -> string, server: string -> nat -> Response)
    ensures forall e :: e in Stored(ps, p => ConfiguredStats(p, lanes, quote, server)) ==>
              e.1.lane == LaneOf(lanes, e.0) && e.1.data.riotId == e.0
  {
    var scrape := p => ConfiguredStats(p, lanes, quote, server);
    StoredSound(ps, scrape);
    forall e | e in Stored(ps, scrape)
      ensures e.1.lane == LaneOf(lanes, e.0) && e.1.data.riotId == e.0
    {
      var i :| 0 <= i < |ps| && ps[i].riotId == e.0 && scrape(ps[i]) == Some(e.1);
      PlayerStatsShape(ps[i].riotId, ps[i].region.GetOr("euw1"), lanes, quote, server);
    }
  }
}
