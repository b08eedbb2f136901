# rib.gg match scraper — a Dafny model of its parsing core

The scraper walks the series listed on rib.gg's results page. For every match
of a series it downloads the match page and decodes the `pageProps` JSON
embedded in the page. It joins the per-round player statistics with the
per-round economy records and appends one CSV row per round to an output file.

This project models the part of that pipeline that turns one decoded match
page into rows, together with the pure logic of `resultsDriver.process_series`:

- **`Json`** (`json.dfy`): decoded JSON values, and Python dictionaries as
  insertion-ordered entry lists. Key order matters because it becomes the
  column order. It defines `d[k] = v`, `del d[k]` and `d.update(e)`, with
  lemmas on what each key reads as afterwards.
- **`Outcome`** (`outcome.dfy`): the exceptions a match can raise
  (`KeyError`, `IndexError`, `TypeError`, `AttributeError`), carried in a
  `Result`.
- **`LookupTables`** (`lookup_tables.dfy`): the id-to-name dictionaries
  built by `get_ign_dict`, `get_weapon_dict`, `get_agent_dict` and
  `get_region_dict`.
- **`Payload`** (`payload.dfy`): the `pageProps` skeleton. It covers locating
  the page's match in its series and building `get_match_info`'s metadata.
- **`Aligner`** (`aligner.dfy`): the window-by-window removal join of
  `player_stats_data`. Each stat record consumes the first remaining economy
  entry with the same (`playerId`, `roundNumber`). It is merged into it, its
  ids are replaced by names, and it is routed to team 1 or team 2.
- **`Parser`** (`parser.dfy`): the `jsonParser` operations: the four table
  builders, `get_match_info`, `player_stats_data`, `get_rounds` and
  `csv_rows`.
- **`Driver`** (`driver.dfy`): `process_series`. It sorts the match links by
  the text after their last `=` and hands the header flag to the first link
  while the output file does not exist yet. It appends the rows of the whole
  series. The `.csv` file-name rule of `resultsDriver.__init__` is here too.

Every loop of the source is a `method` with a `while` loop. Each such method
is proved equal to a specification function, and the properties
are proved about that function as lemmas. Failures are `Err` values rather
than preconditions:

- a missing key;
- an id missing from its table;
- a match id absent from its series;
- a window that reads past the stat list;
- a round with no player window.

Points where the model follows the code rather than its description:

- Nothing catches an exception inside `process_series` (`rib_scraper.py:131-146`).
  The first failing match therefore ends the series, and no row of it is
  appended, because rows are written only after every match is parsed. This
  is `Driver.ResultsDriver.ProcessSeries`: on `Err`, `written` is unchanged.
- The sort key is a string. Links are ordered by text, not number
  (`Driver.TextualOrder`: `...id=10` sorts before `...id=9`).
- The header flag is spent on the first link even when that match is tossed,
  and it is not passed on (`Driver.TossedSeries`). A series whose first match
  is tossed writes no header. A match counts as tossed when its page is an
  error page (`statusCode` 500) or, under the corrected `csv_rows` described
  under "## Findings", when its fetch was discarded.
- `player_stats_data` raises `IndexError` only when a window reaches past the
  last stat record while its economy slice is still non-empty
  (`rib_scraper.py:295-297`). A stat count that is not a multiple of the
  player count is not an error by itself.
- `csv_rows` does not check that every round has the first round's keys. A
  round with other keys gives a row that does not line up with the header.
  `Parser.ColumnsAlign` proves the alignment under that condition only.

## Model

| member | source | states |
|---|---|---|
| Json.GetSet | rib_scraper.py:303-306 | after `d[k] = v`, `k` reads as `v` and every other key as before; the key order grows by `k` exactly when `k` is new |
| Json.GetDelete | rib_scraper.py:309-311 | after `del d[k]`, `k` is absent and every other key reads as before |
| Json.GetUpdate | rib_scraper.py:298-299 | after `econ.update(stat)`, a key reads as in `stat` when `stat` has it, else as in `econ` |
| Outcome.NeedReads | rib_scraper.py:297 | reading `d[k]` succeeds exactly when `k` is one of the dictionary's keys, yielding the value of the first entry stored under `k`; otherwise it raises `KeyError(k)` |
| LookupTables.BuildTable | rib_scraper.py:362-363 | the fill loop yields the fold `TableOf`, whose keys are exactly the listed ids |
| LookupTables.TableOfDomain | rib_scraper.py:371-372 | the table's keys are exactly the ids of the listed entries |
| LookupTables.TableOfLastWins | rib_scraper.py:389-390 | an id maps to the name of the last entry listing it |
| LookupTables.TableOfSize | rib_scraper.py:380-381 | the table has no more keys than there are entries |
| LookupTables.TableOf | rib_scraper.py:362-363 | definition only: the dictionary the fill loop leaves, each entry assigning its name to its id in turn; its contents are stated by `TableOfDomain`, `TableOfLastWins` and `LookupListed` |
| LookupTables.LookupListed | rib_scraper.py:246 | `table[id]` on a table filled from a list of entries succeeds exactly when the id is an integer that some entry lists, and yields the name of the last entry listing it; otherwise the miss names the table and the id |
| Payload.FirstMatchIndex | rib_scraper.py:232-237 | the position of the first match carrying the page's id, and `None` exactly when no match carries it |
| Payload.FindMatchIndex | rib_scraper.py:232-237 | the enumerate-and-break loop finds that first position |
| Payload.MatchInfo | rib_scraper.py:239-267 | the metadata exists exactly when the region id is in the region table and the match is found; a region miss is reported before a missing match |
| Payload.MetadataKeysDistinct | rib_scraper.py:241-265 | the metadata has the twenty keys in the literal's order, each once |
| Payload.Metadata | rib_scraper.py:241-265 | definition only: the twenty-entry dictionary literal; its keys and values are stated by the four lemmas below |
| Payload.MetadataEventFields | rib_scraper.py:243-248 | `parentEvent`, `eventName`, `eventTime`, `bestOf` and `stage` read as the series' fields, `eventRegion` as the resolved region name |
| Payload.MetadataTeamFields | rib_scraper.py:249-253 | `bracket`, `team1`, `team2` and the two series scores read as the series' fields |
| Payload.MetadataMatchFields | rib_scraper.py:256-264 | `matchId` reads as the page's match id and the other eight match columns as the fields of the match |
| Payload.MatchInfoFields | rib_scraper.py:241-265 | the metadata has the twenty keys once each in the literal's order; the eleven series columns read as the series' fields, `eventRegion` as the region table's name for the series' region id, and the nine match columns as the fields of the first match carrying the page's id |
| Parser.IgnTable | rib_scraper.py:351-364 | the player table exists exactly when the page's match is found; otherwise the error is that match id |
| Parser.GetIgnDict | rib_scraper.py:351-364 | the method yields `IgnTable`; its keys are the ids of that match's players |
| Parser.GetWeaponDict | rib_scraper.py:367-373 | the weapon table is the fold of the content's weapons, keyed by their ids |
| Parser.GetAgentDict | rib_scraper.py:376-382 | the agent table is the fold of the content's agents, keyed by their ids |
| Parser.GetRegionDict | rib_scraper.py:385-391 | the region table is the fold of the content's regions, keyed by their ids |
| Parser.GetMatchInfo | rib_scraper.py:229-267 | scan, region table and literal together yield `MatchInfo`, errors included |
| Aligner.NumPlayers | rib_scraper.py:282 | the window stride is at least 1, and equals the player count whenever there is a player |
| Aligner.StatsOfMatch | rib_scraper.py:276-277 | the filter succeeds exactly when every record has a `matchId`; it keeps exactly the records of the page's match, and no more records than it was given |
| Aligner.KeptPositions | rib_scraper.py:276-277 | the positions of the records whose `matchId` is the page's, ascending, each once, and all of them |
| Aligner.StatsOfMatchOrder | rib_scraper.py:276-277 | the filtered list is the records at those positions, in order and with their repetitions |
| Aligner.KeysMatch | rib_scraper.py:297 | definition only: the join test read left to right with `and` short-circuiting; stated by `KeysMatchJoin` |
| Aligner.KeysMatchJoin | rib_scraper.py:297 | the join holds exactly when both records carry `playerId` and `roundNumber` with equal values; it raises only for a missing key, and a missing `roundNumber` only once the player ids agree |
| Aligner.PartnerFrom | rib_scraper.py:296-297 | the first remaining economy entry with the stat record's `playerId` and `roundNumber`; `None` exactly when no entry has both; an error only from an entry the scan reaches |
| Aligner.FindPartner | rib_scraper.py:296-298 | the inner loop, which breaks at the first match, finds that entry |
| Aligner.ResolvePair | rib_scraper.py:298-311 | definition only: `update`, the three lookups, the three `del`s; stated by `ResolvedFields` |
| Aligner.WeaponNameFields | rib_scraper.py:305-306 | the weapon step succeeds exactly when a truthy weapon id is in the weapon table; it writes `weaponName` for a truthy id and leaves every other key alone |
| Aligner.DeleteIds | rib_scraper.py:309-311 | the three `del`s remove the three id keys and nothing else |
| Aligner.ResolvedFields | rib_scraper.py:298-311 | the merged record exists exactly when the player id, agent id and (when truthy) weapon id are in their tables; it holds their names, none of the three ids, and every other key as `update` left it |
| Aligner.StepStat | rib_scraper.py:296-317 | definition only: one stat record's scan, pop, resolution and routing; stated by `StepStatEffect`, `StepStatShape`, `StepStatCounts` and `StepStatRouted` |
| Aligner.StepStatEffect | rib_scraper.py:296-317 | a stat record with no partner changes nothing; otherwise its first partner is popped, and the resolved record is appended to the list its `teamNumber` names and to no other |
| Aligner.RemoveAtShrinks | rib_scraper.py:298 | `pop` removes exactly the one entry at that position |
| Aligner.StepStatShape | rib_scraper.py:296-317 | one stat record either leaves the window alone or consumes its first partner |
| Aligner.ConsumedCounts | rib_scraper.py:298-316 | consuming an entry adds exactly one record and removes exactly one slice entry; earlier records stay |
| Aligner.StepStatCounts | rib_scraper.py:296-317 | one stat record consumes at most one economy entry, one per record produced; earlier records stay in place |
| Aligner.StepStatRouted | rib_scraper.py:313-316 | a record added by one stat record is on its `teamNumber`'s side and joins that stat with an entry of the slice |
| Aligner.WindowFrom | rib_scraper.py:295-317 | definition only: the `for j` loop from position `j`, reading `playerStats[j]` only while the slice is non-empty; stated by the `WindowFrom…` lemmas |
| Aligner.StepStatJoins | rib_scraper.py:296-298 | a stat record that some remaining entry joins consumes the first such entry |
| Aligner.JoinableAfterRemove | rib_scraper.py:296-298 | popping the entry one stat record joined leaves every stat record with a different key still joinable |
| Aligner.WindowFromFull | rib_scraper.py:295-317 | when every position of a window is inside the stat list, the keys are pairwise different and each finds a joining entry, the two lists gain exactly as many records as the window has positions, and the slice loses as many entries |
| Aligner.WindowFromEach | rib_scraper.py:295-317 | in a window inside the stat list with pairwise different keys, every stat record that some entry of the slice joins adds a record resolving it with such an entry: no joinable stat record is passed over |
| Aligner.JoinableCount | rib_scraper.py:295-317 | definition only: the number of stat records of a window that some slice entry joins; used by WindowFromJoinedCount |
| Aligner.WindowFromJoinedCount | rib_scraper.py:295-317 | in a window inside the stat list with pairwise different keys, the two lists gain exactly as many records as the window has joinable stat records; with the lemma above, each of them appears once, neither dropped nor doubled |
| Aligner.WindowFromEmpty | rib_scraper.py:291-317 | the two statements above for a window run from empty team lists over its slice |
| Aligner.WindowFromCounts | rib_scraper.py:295-317 | over a window, records produced equal entries consumed, at most one record per stat position, and the slice never gains an entry |
| Aligner.WindowFromRouted | rib_scraper.py:295-317 | each record a window adds is routed by `teamNumber` and resolves a stat record of the window with an entry of its slice |
| Aligner.EconSlice | rib_scraper.py:291 | `economy[i:i+n]`, clamped as Python slicing is, has at most `n` entries |
| Aligner.ProcessWindow | rib_scraper.py:291-319 | definition only: one window, from empty team lists and the economy slice; stated by the `ProcessWindow…` lemmas |
| Aligner.AlignFrom | rib_scraper.py:290-319 | definition only: the windows from position `i` on; stated by the `AlignFrom…` lemmas |
| Aligner.ProcessWindowFull | rib_scraper.py:290-319 | a window inside the stat list whose records have pairwise different keys and each find a joining entry in its slice fills exactly `numPlayers` places over its two lists |
| Aligner.ProcessWindowEach | rib_scraper.py:290-319 | in a window inside the stat list with pairwise different keys, every stat record some entry of the economy slice `economy[i:i+n]` joins yields a record in `team1Round` or `team2Round` resolving it with such an entry, and `len(team1Round) + len(team2Round)` equals the number of such stat records |
| Aligner.ProcessWindowSize | rib_scraper.py:290-319 | one window's two lists together hold at most as many records as its economy slice has entries, and at most `numPlayers` |
| Aligner.ProcessWindowRouted | rib_scraper.py:290-319 | every record of a window comes from a stat record in `i..i+n` joined with an entry of `economy[i:i+n]`, and sits on the side its `teamNumber` names |
| Aligner.ProcessWindowOnTeams | rib_scraper.py:313-316 | a window's team-1 list holds only team-1 records, its team-2 list only the others |
| Aligner.AlignFromCount | rib_scraper.py:290-319 | equally many team-1 and team-2 windows, and `ceil(len / numPlayers)` of each |
| Aligner.AlignFromSizes | rib_scraper.py:290-319 | every window holds at most `numPlayers` records over both teams |
| Aligner.AlignFromRouted | rib_scraper.py:313-319 | every record of every team-1 window is on team 1, of every team-2 window on team 2 |
| Aligner.AlignFromCons | rib_scraper.py:318-319 | a completed run is the first window followed by the later windows |
| Aligner.TracksStep | rib_scraper.py:290-319 | one more window either joins the finished ones or its error is the outcome of the whole loop |
| Aligner.JoinStat | rib_scraper.py:296-317 | the pop-merge-resolve-route step for one stat record yields `StepStat` |
| Aligner.AlignWindow | rib_scraper.py:291-319 | the inner loop over `j` yields `ProcessWindow` |
| Aligner.AlignWindows | rib_scraper.py:290-321 | the outer loop yields `AlignFrom` from position 0, errors included |
| Parser.PlayerStats | rib_scraper.py:270-321 | player data exists only for a page whose match is found |
| Parser.PlayerStatsData | rib_scraper.py:270-321 | the method yields `PlayerStats`: filter, tables, then the windows |
| Parser.PlayerStatsShape | rib_scraper.py:282-321 | `numPlayers >= 1`; equally many windows per team, `ceil(len / numPlayers)` of them; at most `numPlayers` records per window; every record on its `teamNumber`'s side |
| Parser.TeamValue | rib_scraper.py:338-346 | a window's list is stored as is when non-empty, and as `None` exactly when empty |
| Parser.AttachTeamsFields | rib_scraper.py:338-346 | after attaching, both team keys read as their window's lists (`None` exactly for an empty one), and every other key of the round is unchanged |
| Parser.AttachTeams | rib_scraper.py:338-346 | definition only: the two assignments to a round; stated by `AttachTeamsFields` and `AttachTeamsKeys` |
| Parser.AttachTeamsKeys | rib_scraper.py:339-346 | attaching keeps the round's keys in order, then adds `team1Players` and then `team2Players`, each exactly when the round did not have it |
| Parser.AttachWindows | rib_scraper.py:337-346 | attaching succeeds exactly when there are no more rounds than windows of either team; the `IndexError` names the first missing window; round `k` gets window `k` |
| Parser.AttachAll | rib_scraper.py:337-346 | the in-place loop over the rounds yields `AttachWindows`, errors included |
| Parser.RoundsOf | rib_scraper.py:324-348 | `get_rounds` returns the match's rounds, as many and in order, round `k` with window `k` of each team attached |
| Parser.GetRounds | rib_scraper.py:324-348 | the method yields `RoundsOf`: locate the match, compute the player data, attach |
| Parser.RoundsOfTeams | rib_scraper.py:337-348 | a returned round's team key is `None` exactly when that window has no player of the team; all other keys are as in the page |
| Parser.Header | rib_scraper.py:411-412 | one string cell per column, naming in order the metadata's keys and then the first round's keys |
| Parser.DataRows | rib_scraper.py:413-414 | one row per round, as long as the metadata plus that round |
| Parser.ColumnsAlign | rib_scraper.py:411-414 | when a round has the first round's keys, each cell of its row holds the value of the key the header names at that column |
| Parser.MatchRows | rib_scraper.py:405-416 | definition only: the rows of one match; stated by `MatchRowsShape` |
| Parser.MatchRowsShape | rib_scraper.py:405-416 | no rounds gives the one metadata-values row; otherwise the optional header, then per round in order the metadata values followed by the round's values |
| Parser.ParsedRows | rib_scraper.py:398-400 | a page with `statusCode` 500 yields no rows |
| Parser.ParsedRowsShape | rib_scraper.py:402-416 | a page's rows are those of its metadata and its rounds with players attached |
| Parser.Rows | rib_scraper.py:398-400 | the corrected `csv_rows`: a discarded fetch yields no rows, and a decoded page yields what the written code yields |
| Parser.TossedMatch | rib_scraper.py:398-400 | a tossed match (discarded fetch or error page) yields no rows |
| Parser.RowsAsWritten | rib_scraper.py:398 | `csv_rows` as written raises `AttributeError` for a discarded fetch, and otherwise parses the page |
| Parser.DiscardedFetch | rib_scraper.py:209-223 | for a discarded fetch the written `csv_rows` raises where the corrected one yields no rows; for every decoded page the two agree |
| Parser.BuildDataRows | rib_scraper.py:413-414 | the per-round loop yields `DataRows` |
| Parser.FlattenRows | rib_scraper.py:405-416 | the `output` list is filled with `MatchRows` |
| Parser.CsvRows | rib_scraper.py:394-416 | the corrected `csv_rows` yields `Rows`: no rows for a tossed match, otherwise the page's rows or its error |
| Driver.LastIndexOf | rib_scraper.py:128 | `rfind` gives the last position of the character, or -1 exactly when it is absent |
| Driver.SortKey | rib_scraper.py:128 | the key is the suffix after the last `=`, holds no `=`, and is the whole link when there is none |
| Driver.LexLeTotal | rib_scraper.py:128 | any two keys are comparable as strings |
| Driver.LexLeTrans | rib_scraper.py:128 | string order is transitive |
| Driver.InsertByMultiset | rib_scraper.py:128 | inserting adds exactly the inserted link |
| Driver.InsertBySorted | rib_scraper.py:128 | inserting into a key-sorted list keeps it sorted |
| Driver.SortBySorted | rib_scraper.py:128 | sorting yields the same links, ascending by key |
| Driver.SortBy | rib_scraper.py:128 | the insertion sort keeps the number of links; `SortBySorted` states its order |
| Driver.SortLinks | rib_scraper.py:127-128 | the sorted links are as many as the links; `SortLinksSorted` states permutation and order |
| Driver.SortLinksSorted | rib_scraper.py:127-128 | the sorted links are a permutation of the links, ascending by the text after their last `=` |
| Driver.TextualOrder | rib_scraper.py:128 | keys compare as text: the link ending `=10` sorts before the one ending `=9` |
| Driver.SeriesRows | rib_scraper.py:130-140 | definition only: the rows of each link in turn, each from the corrected `csv_rows`, the flag on the first link only; stated by `SeriesRowsOk` and `TossedSeries` |
| Driver.SeriesRowsOk | rib_scraper.py:131-146 | with the corrected `csv_rows`, a series yields rows exactly when every match does, each parsed with the header flag only if it is the first |
| Driver.TossedSeries | rib_scraper.py:135-140 | with the corrected `csv_rows`, a series whose matches are all tossed (fetch discarded or error page) yields no rows and no header, though the flag was spent on its first link |
| Driver.CsvName | rib_scraper.py:53-55 | the file name ends in `.csv`; it is unchanged exactly when it already did, otherwise it has `.csv` appended |
| Driver.ExistsAsWritten | rib_scraper.py:59 | the existence check as written asks about the given name; it checks the output file only when the name already ends in `.csv` |
| Driver.StaleExistsCheck | rib_scraper.py:53-59 | for `results` with only `results.csv` on disk, rows go to `results.csv` yet the check reports no file |
| Driver.ResultsDriver.constructor | rib_scraper.py:53-59 | the output name is `CsvName(name)`: the given name when its last four characters are `.csv`, and otherwise the name with `.csv` appended; `fileExists` is whether that output file exists, and nothing is written yet |
| Driver.ResultsDriver.ProcessSeries | rib_scraper.py:125-146 | with the corrected `csv_rows`, the result is the rows of the key-sorted links, with the header flag on the first link iff no file existed; `fileExists` becomes true once any link is seen; on success those rows are appended to the file and on error nothing is |

## Left out

- `resultsDriver.get_series` is not part of this model. It drives a Selenium browser over the results page, scrolling and sleeping, and extracts each series row with BeautifulSoup. `process_series` therefore takes the series' match links as a list of `href`s.
- `numSeries`, the loop bound of `get_series`, is never assigned by `__init__` (it sets `numMatches`). This only matters to `get_series`.
- `jsonParser.__init__` is not part of this model. It covers the HTTP retry loop, the page download, the `__NEXT_DATA__` script lookup and `json.loads`. A match page enters the model as `fetch(link)`: `None` when `__init__` returned early, otherwise the decoded `pageProps`. The paths where `__init__` raises instead of returning are not modelled. All eleven attempts can time out, leaving `response` as `None`, so `response.status_code` at line 211 raises `AttributeError`. `json.loads` can fail on a malformed script body at line 225. Each of these ends the whole series at lines 136 and 139.
- JSON decoding is not modelled. So a `pageProps` without a top-level section (`series`, `matchDetails`, `content`), or an entry of the content tables or of a match's players without `id`/`name`, is not modelled: those paths raise `KeyError` in the source. The same holds for the typed fields of the series and its matches: `eventRegionId`, `team1.name`, `team2.name` and the other series fields, and a match's `id`, `map.name`, `rounds`, `players` and other fields, are always present in the model. A match's `id` is always an integer. `pageProps.matchId` is always present too, although line 226 raises `KeyError` without it. The record dictionaries of `playerStats` and `economies` are free dictionaries, and their missing keys are modelled.
- An empty decoded `pageProps` (`not self.form` true for `{}`) is not representable in the typed payload.
- CSV output is not modelled byte for byte. The file is the `written` field, a list of rows; quoting, `flush` and file errors are left out.
- `os.path.isfile` is the `isFile` parameter of the constructor.
- Console output (`print`) is left out.
- Floating-point JSON numbers are not modelled. Python's `True == 1` and `1.0 == 1` in the `teamNumber == 1` test and in dictionary keys are not modelled either: integers, booleans and strings are distinct values.
- In-place mutation and aliasing are not modelled. `playerEcon.update(...)` mutates the economy dictionaries inside `self.form`, and `get_rounds` mutates the page's rounds. The model returns new values instead. No later read in the source sees the mutated dictionaries again: windows are disjoint and each entry is popped once.
- Python's `==` on two JSON objects ignores key order; the model's equality of `Object` values does not. The join compares `playerId` and `roundNumber` values, which are integers in the page, so this matters only for object-valued ids.
- Aligner.ResolvedFields: states what every key of the resolved record reads as, not the record's key order (the economy entry's keys, then the stat record's new keys, then `playerIgn`, `agent` and a new `weaponName`, less the three ids). That order is the column order of the team cells' text, which is not modelled.
- `econWindow.index(player)` finds the first entry equal to `player`. The model pops the scanned position. The two coincide, because an earlier equal entry would have matched first.
- Driver.SortLinks: stability of `list.sort` (equal keys keep their order) is built into the insertion sort but not stated as a lemma. `Driver.SortLinksSorted` proves sortedness and permutation only.
- The module-level script (`driver = resultsDriver(...); driver.get_series()`) is left out.

## Findings

| source | as written | input that shows it | evidently intended | confidence | as-written member | corrected member |
|---|---|---|---|---|---|---|
| rib_scraper.py:209-223 | `__init__` returns before assigning `self.form` when the response has status 500 or the page has no `__NEXT_DATA__` script; `csv_rows` (line 398) then reads `self.form` and raises `AttributeError`, which ends the whole series | a series with one match link whose page is answered with status 500 | the match is tossed and yields no rows, as the `print('Tossing match...')` messages and the `not self.form` guard of `csv_rows` say | high, not executed | Parser.RowsAsWritten (with Parser.DiscardedFetch) | Parser.Rows (with Parser.TossedMatch; produced by Parser.CsvRows, used by Driver.SeriesRows) |
| rib_scraper.py:53-59 | `os.path.isfile(fileName)` checks the name as given, not `self.fileName`, which may have had `.csv` appended | name `results` with `results.csv` already on disk: rows are appended to `results.csv` with a second header row | check the file the rows are appended to, `self.fileName` | medium, not executed | Driver.ExistsAsWritten (with Driver.StaleExistsCheck) | Driver.ResultsDriver.constructor |
