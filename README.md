# lol-team-stats in Dafny

This project models the deterministic core of lol-team-stats, a tool that builds a dashboard for a League of Legends team. The tool:

- scrapes each configured player's op.gg profile;
- turns the page's meta description into a player record;
- renders the team as a static page;
- publishes that page to GitHub Pages.

It models three pieces of that code.

1. **The scraper** (`lol_scraper.py`).
   - The description text is parsed into a player record. Three tier patterns are tried in a fixed order: apex, duplicated division, simple. The parser then searches for the overall `NWin NLose` record and scans for up to five champion clauses.
   - The lane annotations are parsed from the configuration text.
   - A riot id is split at its `#`, and the region is mapped to an op.gg region.
   - The profile fetch makes up to three attempts.
   - `scrape_team` collects the players with their counts.
2. **The dashboard helpers** (`github_pages_generator.py`):
   - the champion icon URL, with its name-fix table;
   - the tier rank value and the tier CSS class;
   - primary-role detection;
   - the lane-order sort;
   - the leaderboards: descending stable sort, top five, medals and highlight classes;
   - the team overview: highest-ranked player and trend;
   - the truncations and grades of the champion cards, the trend strip and the recent games.
3. **The deployment sequence** (`github_manager.py`):
   - repository creation, local git setup, push and Pages activation;
   - the four-step pipeline that chains them.

   Every HTTP request and every `git` command is an outcome given to the model up front.

### Shared modules

- `Options`, `Text`, `Regex`: Python's string operations and the fragment of `re` that the scraper uses.
  - `re.search` is the leftmost match; `re.findall` repeats non-overlapping leftmost matches.
  - The matcher consumes runs greedily and never backtracks. In most of the scraper's patterns a repeated class is followed by something the class cannot match (`\d+` by `Win`, `\s+` by a digit), so the greedy run is the only one that can match. There are two exceptions:
    - The lane key `"([^"]+#[^"]+)"` (lol_scraper.py:209): `[^"]+` can also match the '#' after it. The key is one piece, `Regex.HashKey`: a quoted text with a '#' that has a character on each side. Its group is the whole quoted text, whichever '#' backtracking would settle on.
    - The champion name `[A-Za-z'.\s&]+` before `\s*-` (lol_scraper.py:368): the class can also match the whitespace after it. The greedy name run takes the spaces before the '-' and `\s*` matches nothing; Python's backtracking finds the same match and group. `strip` later removes those spaces.
  - `Regex.MatchOfRendering` proves the matcher complete for texts built piece by piece; `Regex.SearchOfRendering` and `Regex.SearchFromRendering` add that such a text is the leftmost match when nothing matches before it, from the start of the text or from any later position.
  - `Regex.MatchGroupsFit` proves that every group it captures has the shape its piece allows.
- `Completeness`: the extraction run forwards. A tier line, an overall record or a champion clause written the way op.gg writes it is read back exactly, and the worked examples in the scraper's comments are proved on their full text.
- `Sorting`: Python's stable `list.sort(key=...)` as an insertion sort. It is proved to be a sorted permutation that keeps equal keys in input order, and to be the only sequence with those three properties.

### Modelling choices

**Regexes**
- `\d`, `\w`, `isalnum`, `lower`, `title` and `re.IGNORECASE` are modelled on ASCII letters.
- `\s` and `strip` use the Unicode whitespace set.

**Numbers**
- Python `round` on floats is modelled as exact half-to-even rounding of the rational value: `Extraction.RoundRatio` and `Dashboard.RoundHalfEven`.
- The dashboard's dictionaries are a `Dict` of text fields and number fields, read with a default as `dict.get` does.

**Inputs**
- Sequences of players stand for Python dictionaries. `Scraper.ScrapeTeam` therefore requires distinct riot ids, which is what a dictionary's keys are.
- The page's meta lookup is three optional strings.
- The server's replies are a function from URL and attempt number to a response.

**Where the code and its comments or documentation differ, the model follows the code:**
- Commits: the comment at github_manager.py:95 says a commit is made only when something changed. `push_to_github` instead ignores every non-zero exit of `git commit` and pushes once.
- Publishing: the code does not make publishing idempotent. It re-runs every step on each call, and `git remote remove` is ignored whatever it returns.
- Champion records: the comments at lol_scraper.py:355 and :365 present the overall `NWin NLose` record and the champion clauses as separate steps. In the code the record is a leftmost search over the whole text. It therefore picks up the first champion clause's wins and losses when no record comes earlier (`Extraction.ChampionClauseRecord`).

## Model

| member | source | states |
|---|---|---|
| Regex.Search | lol_scraper.py:340-356 | `re.search`: a match starts at the returned position, and no pattern match starts at any earlier position |
| Regex.FindAll | lol_scraper.py:368 | `re.findall`: every result has one string per group, and the result is empty iff the pattern occurs nowhere |
| Regex.MatchOfRendering | lol_scraper.py:333-353 | a text assembled from pieces that each fit their pattern piece is matched at its start, ending after the assembled text, with the pieces' groups as its groups |
| Regex.SearchFromRendering | lol_scraper.py:210 | a search from position `from` finds such an assembled text right after a stretch where the pattern matches nowhere, ending after it, with the pieces' groups |
| Extraction.DescriptionOf | lol_scraper.py:307-326 | the text comes from `description` when that tag is present (even if empty), else `twitter:description`, else `og:description`, else "" |
| Extraction.TierGroups | lol_scraper.py:333-353 | a match of tier pattern k captures a tier that lower-cases to an apex name iff k is the apex pattern; title-cased, it is an apex or a division tier spelt with the same letters; the division and LP groups are non-empty digit strings |
| Extraction.FirstTierWins | lol_scraper.py:339-353 | when pattern j is the first to match: the tier is title-cased; an apex tier is its own rank with the number before "LP" as LP; a division tier is ranked "Tier N" with the last number as LP |
| Extraction.NoTierNoStanding | lol_scraper.py:339-353 | when no tier pattern matches, no standing is extracted |
| Extraction.RoundRatio | lol_scraper.py:363 | Python `round(num/den)`: within one half of the exact quotient, and even on a tie |
| Extraction.WinRate | lol_scraper.py:359-363 | a percentage in 0..100, 0 when no games were played; otherwise 100 wins / games rounded: within one half, and even on a tie |
| Extraction.ChampionOf | lol_scraper.py:370-377 | games are wins plus losses and the name is stripped |
| Extraction.ChampionsOfEntries | lol_scraper.py:368-378 | one champion per clause, in the order of the clauses |
| Extraction.ExtractedStanding | lol_scraper.py:292-353 | the id is both riot id and summoner name; the tier stays "Unranked", with rank "" and LP 0, iff the description is empty or no tier pattern matches; otherwise the standing is a known tier with its rank |
| Extraction.ExtractedRecord | lol_scraper.py:356-363 | wins, losses, total and rate stay 0 without a `NWin NLose` match; otherwise the total is wins plus losses and the rate is `WinRate` of them, the rounded percentage, at most 100 and 0 for no games |
| Extraction.ExtractedChampions | lol_scraper.py:366-378 | none for an empty description; otherwise at most five champions, exactly the first min(5, clauses) entries in source order, each with games = wins + losses and a stripped name |
| Extraction.ChampionClauseRecord | lol_scraper.py:356-368 | a description with a champion clause always yields a record, found no later than that clause's `NWin NLose`, and equal to the first champion's wins and losses when nothing matches earlier |
| Extraction.LowerCaseExample | lol_scraper.py:340-353 | a lower-case tier "gold" is stored as "Gold" and ranked "Gold 3" |
| Completeness.ApexRoundTrip | lol_scraper.py:334-345 | an apex tier line "Tier N LLP", in any letter case, after text where the apex pattern does not match, gives the tier in its usual spelling, ranked as itself, with L as LP |
| Completeness.DuplicatedRoundTrip | lol_scraper.py:335-353 | with no apex match, a division tier line "Tier D N LLP" after text where that pattern does not match gives the tier ranked "Tier D" with L as LP |
| Completeness.SimpleRoundTrip | lol_scraper.py:336-353 | with neither earlier pattern matching, a line "Tier D LLP" after text where the simple pattern does not match gives the tier ranked "Tier D" with L as LP |
| Completeness.DuplicatedAfterPlainPrefix | lol_scraper.py:335-353 | the same when no tier name opens in the prefix and no apex name opens anywhere |
| Completeness.ApexAfterPlainPrefix | lol_scraper.py:334-345 | the same for an apex tier after a prefix in which no apex name opens |
| Completeness.PlatinumExample | lol_scraper.py:331 | "Figure09#1893 / Platinum 1 1 39LP" gives Platinum, ranked "Platinum 1", with 39 LP |
| Completeness.MasterExample | lol_scraper.py:332 | "cl1ck9r#EUWES / Master 1 47LP" gives Master, ranked "Master", with 47 LP |
| Completeness.WinLossRoundTrip | lol_scraper.py:356-360 | "WWin LLose" after text where no digit is directly followed by a 'W' and that does not end in a digit (such as a riot id and its tier line) is read back as W wins and L losses |
| Completeness.MasterRecordExample | lol_scraper.py:356-360 | the comment example of lol_scraper.py:332 followed by its record, "cl1ck9r#EUWES / Master 1 47LP / 31Win 32Lose", with the riot id first and a 'W' in its tag, gives 31 wins and 32 losses |
| Completeness.WinLossExample | lol_scraper.py:356-360 | "31Win 32Lose" gives 31 wins and 32 losses |
| Completeness.ChampionRoundTrip | lol_scraper.py:368 | a champion clause after text where the champion pattern does not match is the first `re.findall` result, with the name run and the three numbers as groups, and the scan goes on where it ends |
| Completeness.StripPadded | lol_scraper.py:371 | `strip` gives back a name that neither starts nor ends with whitespace, whatever whitespace surrounds it |
| Completeness.UrgotExample | lol_scraper.py:366-378 | "Urgot - 31Win 32Lose Win rate 49%" has exactly one champion match; it is read as Urgot with 31 wins, 32 losses, 63 games and 49%, and its "31Win 32Lose" is the player's record |
| Extraction.MatchTier | lol_scraper.py:339-353 | the first-match loop over the tier patterns returns the standing of the first pattern that matches |
| Extraction.ChampionEntries | lol_scraper.py:370-378 | the loop over the champion matches builds exactly one entry per match, in order |
| Extraction.ExtractPlayerData | lol_scraper.py:290-386 | the record built field by field from the defaults equals the extracted record of the chosen description |
| LaneMapping.Annotations | lol_scraper.py:209-210 | every annotation found is a pair of riot id and lane |
| LaneMapping.ExtractLaneMapping | lol_scraper.py:198-219 | the loop that fills the mapping yields the mapping of the annotations in the configuration text, empty when there is none |
| LaneMapping.LastPairWins | lol_scraper.py:212-213 | an id is mapped iff some annotation names it, and it is mapped to the lane of its last annotation |
| LaneMapping.LaneKeys | lol_scraper.py:209 | every mapped id has a `#` with text on both sides and no `"` |
| LaneMapping.LaneValues | lol_scraper.py:209 | every lane is a non-empty run of word characters |
| LaneMapping.LaneRoundTrip | lol_scraper.py:209-210 | an annotated player line `"name#tag": {settings}, #LANE`, with any whitespace the pattern allows, after text where the pattern does not match, is the next `re.findall` result as the pair [name#tag, LANE], and the scan goes on where the line ends |
| LaneMapping.LinesRoundTrip | lol_scraper.py:203-210 | indented player lines, each ending in the newline text-mode reading leaves, between text without quotes, give exactly one pair per line, in the order of the lines |
| LaneMapping.TeamAnnotations | config.py:8-13 | the team's five player lines, up to the brace that closes them, give the pairs of the five ids and lanes in order |
| LaneMapping.TeamLanes | config.py:8-13 | the lane mapping of the team's five player lines maps the five ids to TOP, JGL, MID, ADC and SUPP |
| Scraper.RegionIgnoresCase | lol_scraper.py:229 | the op.gg region depends only on the letters, not their case |
| Scraper.RegionIsLower | lol_scraper.py:229 | the op.gg region has no upper-case letter |
| Scraper.RegionIdempotent | lol_scraper.py:40-44 | mapping an op.gg region again gives the same region |
| Scraper.SplitRiotId | lol_scraper.py:224-228 | no split iff the id has no `#`; otherwise name `#` tag is the id and the name has no `#` |
| Scraper.FetchProfile | lol_scraper.py:239-261 | the retry loop returns the page and the number of requests of the first decisive reply among three attempts |
| Scraper.FetchBudget | lol_scraper.py:239-240 | between one and three requests are made |
| Scraper.NotFoundStops | lol_scraper.py:245-247 | a 404 after only non-decisive replies ends the loop at once with no page |
| Scraper.FoundStops | lol_scraper.py:243-244 | a 200 after only non-decisive replies ends the loop with its page |
| Scraper.PageOnlyFromOk | lol_scraper.py:240-261 | a page is returned only when some attempt answered 200 with it |
| Scraper.GetPlayerStats | lol_scraper.py:221-286 | the stats are those of the model; an id without `#` makes no request; at most three requests are made |
| Scraper.PlayerStatsShape | lol_scraper.py:224-286 | stats exist iff the id has a `#` and a page was fetched; they carry the id and the mapped lane, FLEX when unmapped |
| Scraper.ScrapeTeam | lol_scraper.py:388-415 | the team name defaults to "LoL Team"; total players is the number configured; the stored players are those with stats, in order; the success count is the number stored |
| Scraper.StoredComplete | lol_scraper.py:403-407 | every player with stats is stored under its own id, whatever happens to the others |
| Scraper.StoredSound | lol_scraper.py:403-407 | every stored entry belongs to a configured player with exactly those stats |
| Scraper.StoredDistinct | lol_scraper.py:406 | no id is stored twice |
| Scraper.StoredLanes | lol_scraper.py:276 | every stored player's lane is its mapped lane, or FLEX |
| Sorting.SortPermutes | github_pages_generator.py:56 | sorting keeps exactly the same elements |
| Sorting.SortSorted | github_pages_generator.py:56 | the result is non-decreasing in the key |
| Sorting.SortStable | github_pages_generator.py:56 | elements with equal keys keep their input order |
| Sorting.SortIsTheStableSort | github_pages_generator.py:570 | any sorted permutation that keeps equal keys in order is the result of the sort |
| Dashboard.RoundHalfEven | github_pages_generator.py:547 | Python `round`: within one half, and even on a tie |
| Dashboard.IconFile | github_pages_generator.py:229-235 | the file part of an icon URL is purely alphanumeric |
| Dashboard.IconUrlShape | github_pages_generator.py:224-235 | an empty name gives the MissingChampion icon; any other name gives base + an alphanumeric file + ".png" |
| Dashboard.IconOfFixedAndPlain | github_pages_generator.py:224-235 | a name in the fix table gives its fixed file name; an alphanumeric name not in it is used unchanged |
| Dashboard.FixesAlnum | github_pages_generator.py:20-42 | every fixed name in the table is already alphanumeric |
| Dashboard.FixExamples | github_pages_generator.py:20-42 | "Kai'Sa" is fixed to "Kaisa" and "Wukong" to "MonkeyKing" |
| Dashboard.RankValueOfTier | github_pages_generator.py:270-289 | a tier on the ladder at position i is worth 9000 - 1000 i plus LP, whatever its case |
| Dashboard.RankValueUnranked | github_pages_generator.py:272-289 | a tier not on the ladder contributes 0, leaving the LP |
| Dashboard.HigherTierRanksHigher | github_pages_generator.py:270-289 | with LP in 0..1000, a higher tier always ranks above a lower one |
| Dashboard.TierClassDistinct | github_pages_generator.py:892-906 | the class ignores case; distinct ladder tiers get distinct classes; "tier-unranked" iff the tier is off the ladder |
| Dashboard.ScrapedTierClass | github_pages_generator.py:892-906 | a scraped tier is shown as unranked iff it is "Unranked"; any other scraped tier gets its own class |
| Dashboard.PrimaryRoleChoice | github_pages_generator.py:241-260 | among the first two champions, the first role in the priority order ADC, Support, Jungle, Mid, Top with a hit wins |
| Dashboard.PrimaryRoleFlex | github_pages_generator.py:243-260 | no champions, or no hit among the first two, gives "Flex" |
| Dashboard.PrimaryRoleExample | github_pages_generator.py:241-260 | with Urgot, Jinx, Thresh the role is ADC: the priority wins, and Thresh, the third, is not consulted |
| Dashboard.PrimaryRoleExampleTop | github_pages_generator.py:241-260 | with Urgot, Gwen the role is Top |
| Dashboard.ByLaneSorted | github_pages_generator.py:53-56 | the lane sort is a permutation, non-decreasing in TOP < JGL < MID < ADC < SUPP < FLEX, and stable |
| Dashboard.LaneKeyRange | github_pages_generator.py:53-56 | lane keys lie in 1..6; TOP is first; an unknown or missing lane sorts as 6 |
| Dashboard.Highest | github_pages_generator.py:621 | the first player of maximal rank value |
| Dashboard.TeamOverview | github_pages_generator.py:603-636 | no players gives the empty overview; the highest rank shown is the highest player's rank; the team win rate is total wins over total games (at least 1) as a percentage, within one half and even on a tie; the trend is up from 60, down below 50, stable in between |
| Dashboard.WinRateGradeMonotone | github_pages_generator.py:416-424 | a higher win rate never gets a lower grade; excellent from 60, poor below 50 |
| Dashboard.ChampionCards | github_pages_generator.py:399-424 | placeholder iff no champions; otherwise one card for each of the first two champions, in order |
| Dashboard.PerformanceTrend | github_pages_generator.py:479-489 | placeholder iff no results; otherwise the last ten results in order, each a win iff it is "W" |
| Dashboard.RecentGames | github_pages_generator.py:491-529 | placeholder iff no games; otherwise the first three games, in order |
| Dashboard.GameDefaults | github_pages_generator.py:498-505 | a game without a result shows as a loss, one without a champion as "Unknown"; only "W" is a win |
| Ranking.DisplayName | github_pages_generator.py:566 | the name shown is the id up to its first `#`, or the whole id without one |
| Ranking.PerformanceScore | github_pages_generator.py:543-548 | the score never exceeds 100; it is the rounded weighted sum up to 99.5, and 100 from 99.5 on |
| Ranking.Leaderboard | github_pages_generator.py:531-601 | placeholder iff no players; otherwise min(5, players) items, item i carrying medal i, its class and the i-th entry of the descending ranking |
| Ranking.RankedOrder | github_pages_generator.py:570 | the ranking holds every entry once, highest value first, with ties in team order |
| Ranking.LeaderIsBest | github_pages_generator.py:570-576 | the first row is worth at least every player, and every row shown at least every row left out |
| Ranking.RankClasses | github_pages_generator.py:580-590 | gold, silver and bronze go only to rows 0-2 of the win-rate, KDA and performance boards |
| Ranking.MedalsOfRows | github_pages_generator.py:574-577 | the rows shown get the five medals in order, all different |
| Deployment.CreateRepository | github_manager.py:24-59 | success iff the check answers 200 or the creation answers 201; the creation is attempted only after a non-200 check |
| Deployment.Stop | github_manager.py:61-112 | which command outcomes end a step: a failing exit where it is checked, an OS error unless it is ignored |
| Deployment.RunScript | github_manager.py:61-112 | running the commands stops at the first one that ends the step, having attempted exactly the commands up to it |
| Deployment.ScriptStops | github_manager.py:61-112 | a step succeeds iff none of its commands ends it |
| Deployment.SetupLocalGit | github_manager.py:61-87 | the setup step runs its script: init when needed, branch, remove and add the remote |
| Deployment.SetupOutcome | github_manager.py:61-87 | setup succeeds iff (a .git exists or init succeeds), the branch succeeds and adding the remote succeeds; the remote removal never matters; init is attempted iff there is no .git |
| Deployment.PushToGitHub | github_manager.py:89-112 | the push step runs add, commit and push |
| Deployment.PushOutcome | github_manager.py:89-112 | the push succeeds iff add succeeds, commit does not raise, and push succeeds; a failing commit acts exactly like a succeeding one |
| Deployment.Pages | github_manager.py:114-150 | success iff Pages already answers 200 or the activation answers 200 or 201; a failure always gives the fallback address |
| Deployment.EnablePages | github_manager.py:114-150 | activation returns the result of `Pages` and is only attempted after a non-200 check |
| Deployment.FullDeployment | github_manager.py:152-174 | success iff creation, setup and push succeed; a failure gives ""; a success gives the Pages URL whatever Pages' own result; the steps run stop at the first failure, and no git command or Pages call follows a failed creation |

## Left out

- Network, HTML parsing and pacing: the HTTP session, BeautifulSoup's meta lookup, `time.sleep`, timestamps and logging. The meta lookup is three optional strings. The server's replies are a parameter. The team's `last_updated` field is not modelled.
- Scraper.ProfileUrl: `urllib.parse.quote` is a parameter, not percent-encoding.
- Random data: the random recent games, stat enhancement, champion enhancement, recent performance and role distribution, including the deterministic weights inside them (lol_scraper.py:46-196, github_pages_generator.py:83-268). They fabricate data and draw on a random generator.
- Floating point: win rates, averages, the performance score and the grades use exact reals with exact half-to-even rounding. A float that is not exactly representable can round differently at a tie.
- Formatting: display formatting (`:.1f`, `:.2f`) and the HTML, CSS and JavaScript of the page are left out, as are `json.dump` and the directory and file writes of `generate_page`.
- Text: `lower`, `title`, `isalnum`, `\d`, `\w` and `re.IGNORECASE` are modelled on ASCII letters and digits only.
- Deployment: the git subprocesses and the GitHub REST calls are outcomes given up front. The tokens, request bodies and headers are not modelled.
- Extraction.LowerCaseExample: proved from the groups the pattern captures, not on lower-case description text.
- ExtractPlayerData: the `try ... except Exception: return data` path (lol_scraper.py:384-386) is not modelled; `Extraction.Extracted` always completes. In Python an exception there returns the record as filled so far. This happens when `int()` refuses a digit string of more than 4300 digits, and when "ſ" stands for the "s" of Master or Grandmaster: the lower-cased tier is then not an apex name, so the division branch asks for `group(3)`, which the apex pattern does not have (lol_scraper.py:340-349).
- Completeness round trips: they cover texts in op.gg's own format after a prefix where the pattern does not match; they do not say what is extracted from arbitrary text.
- LaneMapping.TeamLanes: proved over the five player lines of config.py and the brace that closes them (lines 8-13), not over the whole file. The header before them holds a quoted key in a comment and the GitHub section after them holds quoted strings; showing that the pattern matches nowhere there would mean running the matcher over that text position by position.
- Dashboard.RecentGames: a game's icon URL is not part of the model's view of a game; it is `IconUrl` of the champion shown.
- Dashboard.FixExamples: the examples are stated at the level of the fix table; `IconOfFixedAndPlain` turns them into URLs.
- Dashboard.ChampionCards: the KDA grade is modelled by `KdaGrade`, but only the win-rate grade's monotonicity is proved.
- Ranking.Medal: rows after the fifth would get "6.", "7.", ...; only five rows are ever shown.
- main.py (command-line glue, token file, console output) and config.py (data; only its lane annotations are used) are not part of this model.
- `_generate_team_comparison_charts`, `_generate_player_stats_json` and the per-player HTML assembly are rendering and are left out.
