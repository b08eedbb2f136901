/** The `jsonParser` of one match page: the lookup tables, the match metadata,
    the per-round player lists, the rounds with their players attached, and
    the exported rows. Each operation reads the decoded `pageProps` that the
    parser holds; none of them assigns a field of the parser. */
module Parser {
  import opened Json
  import opened Outcome
  import opened LookupTables
  import opened Payload
  import opened Aligner

  /** `get_ign_dict`: player id to in-game name, from the players of the
      first match carrying the page's id. */
  function IgnTable(form: PageProps): (r: Result<map<int, string>>)
    ensures r.Ok? <==> FirstMatchIndex(form.series.matches, form.matchId).Some?
    ensures r.Err? ==> r.error == MatchNotFound(form.matchId)
  {
    match FirstMatchIndex(form.series.matches, form.matchId)
    case None => Err(MatchNotFound(form.matchId))
    case Some(index) => Ok(TableOf(form.series.matches[index].players))
  }

  method GetIgnDict(form: PageProps) returns (r: Result<map<int, string>>)
    ensures r == IgnTable(form)
    ensures r.Ok? ==>
      (r.value.Keys == set e | e in form.series.matches[FirstMatchIndex(form.series.matches, form.matchId).value].players :: e.id)
  {
    var index := FindMatchIndex(form.series.matches, form.matchId);
    if index.None? {
      return Err(MatchNotFound(form.matchId));
    }
    var table := BuildTable(form.series.matches[index.value].players);
    return Ok(table);
  }

  /** `get_weapon_dict` */
  method GetWeaponDict(form: PageProps) returns (table: map<int, string>)
    ensures table == TableOf(form.content.weapons)
    ensures table.Keys == set e | e in form.content.weapons :: e.id
  {
    table := BuildTable(form.content.weapons);
  }

  /** `get_agent_dict` */
  method GetAgentDict(form: PageProps) returns (table: map<int, string>)
    ensures table == TableOf(form.content.agents)
    ensures table.Keys == set e | e in form.content.agents :: e.id
  {
    table := BuildTable(form.content.agents);
  }

  /** `get_region_dict` */
  method GetRegionDict(form: PageProps) returns (table: map<int, string>)
    ensures table == TableOf(form.content.regions)
    ensures table.Keys == set e | e in form.content.regions :: e.id
  {
    table := BuildTable(form.content.regions);
  }

  /** `get_match_info`: scan for the match, build the region table, then the
      metadata literal, whose `eventRegion` entry is looked up before the
      first entry that indexes the match. */
  method GetMatchInfo(form: PageProps) returns (r: Result<Dict>)
    ensures r == MatchInfo(form)
  {
    var index := FindMatchIndex(form.series.matches, form.matchId);
    var regionDict := GetRegionDict(form);
    var region := LookupId(regionDict, Regions, form.series.eventRegionId);
    if region.Err? {
      return Err(region.error);
    }
    if index.None? {
      return Err(MatchNotFound(form.matchId));
    }
    r := Ok(Metadata(form.series, region.value, form.matchId, form.series.matches[index.value]));
  }

  /** What `player_stats_data` returns or raises: filter the stat records of
      the match, build the tables (the player table needs the match), then
      align window by window. */
  function PlayerStats(form: PageProps): (r: Result<(seq<seq<Dict>>, seq<seq<Dict>>)>)
    ensures r.Ok? ==> FirstMatchIndex(form.series.matches, form.matchId).Some?
  {
    var stats :- StatsOfMatch(form.series.playerStats, form.matchId);
    var ign :- IgnTable(form);
    var t := Tables(ign, TableOf(form.content.agents), TableOf(form.content.weapons));
    AlignFrom(stats, form.economies, NumPlayers(ign), 0, t)
  }

  method PlayerStatsData(form: PageProps) returns (r: Result<(seq<seq<Dict>>, seq<seq<Dict>>)>)
    ensures r == PlayerStats(form)
  {
    var stats := StatsOfMatch(form.series.playerStats, form.matchId);
    if stats.Err? {
      return Err(stats.error);
    }
    var ignDict := GetIgnDict(form);
    if ignDict.Err? {
      return Err(ignDict.error);
    }
    var numPlayers := NumPlayers(ignDict.value);
    var agentDict := GetAgentDict(form);
    var weaponDict := GetWeaponDict(form);
    r := AlignWindows(stats.value, form.economies, numPlayers, Tables(ignDict.value, agentDict, weaponDict));
  }

  /** The shape of the per-round player lists: as many team-1 windows as
      team-2 windows, `ceil(len / numPlayers)` of each for the `len` stat
      records of the match, at most `numPlayers` records per window, and every
      record on the side its `teamNumber` names. */
  lemma PlayerStatsShape(form: PageProps)
    requires PlayerStats(form).Ok?
    ensures var r := PlayerStats(form).value;
      var stats := StatsOfMatch(form.series.playerStats, form.matchId).value;
      var n := NumPlayers(IgnTable(form).value);
      && n >= 1
      && |r.0| == |r.1|
      && (stats == [] ==> |r.0| == 0)
      && (stats != [] ==> (|r.0| - 1) * n < |stats| <= |r.0| * n)
      && (forall w :: 0 <= w < |r.0| ==> |r.0[w]| + |r.1[w]| <= n)
      && (forall w, k :: 0 <= w < |r.0| && 0 <= k < |r.0[w]| ==> OnTeam1(r.0[w][k]))
      && (forall w, k :: 0 <= w < |r.1| && 0 <= k < |r.1[w]| ==> OnTeam2(r.1[w][k]))
  {
    var stats := StatsOfMatch(form.series.playerStats, form.matchId).value;
    var ign := IgnTable(form).value;
    var t := Tables(ign, TableOf(form.content.agents), TableOf(form.content.weapons));
    AlignFromCount(stats, form.economies, NumPlayers(ign), 0, t);
    AlignFromSizes(stats, form.economies, NumPlayers(ign), 0, t);
    AlignFromRouted(stats, form.economies, NumPlayers(ign), 0, t);
  }

  /** A round's player list: the list itself when it is non-empty, `None` when
      it is empty. */
  function TeamValue(recs: seq<Dict>): (v: Value)
    ensures v == Null <==> recs == []
    ensures v != Null ==> v.List? && |v.items| == |recs|
  {
    if recs == [] then Null else List(seq(|recs|, k requires 0 <= k < |recs| => Object(recs[k])))
  }

  /** `round['team1Players'] = ...` and then `round['team2Players'] = ...`. */
  function AttachTeams(round: Dict, team1: seq<Dict>, team2: seq<Dict>): Dict {
    Set(Set(round, "team1Players", TeamValue(team1)), "team2Players", TeamValue(team2))
  }

  /** Both team keys read as the window's lists (`None` exactly for an empty
      one), and every other key reads as before. */
  lemma AttachTeamsFields(round: Dict, team1: seq<Dict>, team2: seq<Dict>, k: string)
    ensures var d := AttachTeams(round, team1, team2);
      && Get(d, "team1Players") == Some(TeamValue(team1))
      && Get(d, "team2Players") == Some(TeamValue(team2))
      && (Get(d, "team1Players") == Some(Null) <==> team1 == [])
      && (Get(d, "team2Players") == Some(Null) <==> team2 == [])
      && (k != "team1Players" && k != "team2Players" ==> Get(d, k) == Get(round, k))
  {
    var d1 := Set(round, "team1Players", TeamValue(team1));
    GetSet(round, "team1Players", TeamValue(team1), k);
    GetSet(round, "team1Players", TeamValue(team1), "team1Players");
    GetSet(d1, "team2Players", TeamValue(team2), k);
    GetSet(d1, "team2Players", TeamValue(team2), "team1Players");
    GetSet(d1, "team2Players", TeamValue(team2), "team2Players");
  }

  /** The round's keys keep their order; `team1Players` and then
      `team2Players` follow, each only when the round did not have it. */
  lemma AttachTeamsKeys(round: Dict, team1: seq<Dict>, team2: seq<Dict>)
    ensures Keys(AttachTeams(round, team1, team2)) ==
      Keys(round)
      + (if "team1Players" in Keys(round) then [] else ["team1Players"])
      + (if "team2Players" in Keys(round) then [] else ["team2Players"])
  {
    var d1 := Set(round, "team1Players", TeamValue(team1));
    GetIsKey(round, "team1Players");
    GetIsKey(round, "team2Players");
    GetSet(round, "team1Players", TeamValue(team1), "team2Players");
    GetSet(d1, "team2Players", TeamValue(team2), "");
  }

  /** The loop of `get_rounds` on the rounds of the match: round `num` takes
      window `num` of each team; the first round without a window raises. */
  function AttachWindows(rounds: seq<Dict>, team1Players: seq<seq<Dict>>, team2Players: seq<seq<Dict>>)
    : (r: Result<seq<Dict>>)
    ensures r.Ok? <==> |rounds| <= |team1Players| && |rounds| <= |team2Players|
    ensures r.Err? ==> r.error == RoundsIndexError(if |team1Players| <= |team2Players| then |team1Players| else |team2Players|)
    ensures r.Ok? ==> |r.value| == |rounds|
    ensures r.Ok? ==>
      forall k :: 0 <= k < |rounds| ==> r.value[k] == AttachTeams(rounds[k], team1Players[k], team2Players[k])
  {
    var windows := if |team1Players| <= |team2Players| then |team1Players| else |team2Players|;
    if |rounds| > windows then Err(RoundsIndexError(windows))
    else Ok(seq(|rounds|, k requires 0 <= k < |rounds| => AttachTeams(rounds[k], team1Players[k], team2Players[k])))
  }

  /** The `for num, round in enumerate(rounds)` loop, which updates each
      round in place. */
  method AttachAll(rounds: seq<Dict>, team1Players: seq<seq<Dict>>, team2Players: seq<seq<Dict>>)
    returns (r: Result<seq<Dict>>)
    ensures r == AttachWindows(rounds, team1Players, team2Players)
  {
    var current := rounds;
    var num := 0;
    while num < |current|
      invariant num <= |current| == |rounds|
      invariant num <= |team1Players| && num <= |team2Players|
      invariant forall k :: 0 <= k < num ==> current[k] == AttachTeams(rounds[k], team1Players[k], team2Players[k])
      invariant current[num..] == rounds[num..]
    {
      if num >= |team1Players| {
        return Err(RoundsIndexError(num));
      }
      var round := Set(current[num], "team1Players", TeamValue(team1Players[num]));
      if num >= |team2Players| {
        return Err(RoundsIndexError(num));
      }
      round := Set(round, "team2Players", TeamValue(team2Players[num]));
      assert current[num] == rounds[num];
      current := current[num := round];
      num := num + 1;
    }
    assert current == seq(|rounds|, k requires 0 <= k < |rounds| => AttachTeams(rounds[k], team1Players[k], team2Players[k]));
    r := Ok(current);
  }

  /** What `get_rounds` returns or raises: the rounds of the match with the
      players of the window of the same position attached. */
  function RoundsOf(form: PageProps): (r: Result<seq<Dict>>)
    ensures r.Ok? ==> PlayerStats(form).Ok?
    ensures r.Ok? ==> FirstMatchIndex(form.series.matches, form.matchId).Some?
    ensures r.Ok? ==>
      var rounds := form.series.matches[FirstMatchIndex(form.series.matches, form.matchId).value].rounds;
      var data := PlayerStats(form).value;
      && |r.value| == |rounds| && |rounds| <= |data.0| && |rounds| <= |data.1|
      && forall k :: 0 <= k < |rounds| ==> r.value[k] == AttachTeams(rounds[k], data.0[k], data.1[k])
  {
    match FirstMatchIndex(form.series.matches, form.matchId)
    case None => Err(MatchNotFound(form.matchId))
    case Some(index) =>
      var data :- PlayerStats(form);
      AttachWindows(form.series.matches[index].rounds, data.0, data.1)
  }

  /** `get_rounds`: locate the match, compute the player lists, attach them. */
  method GetRounds(form: PageProps) returns (r: Result<seq<Dict>>)
    ensures r == RoundsOf(form)
  {
    var index := FindMatchIndex(form.series.matches, form.matchId);
    if index.None? {
      return Err(MatchNotFound(form.matchId));
    }
    var rounds := form.series.matches[index.value].rounds;
    var playerData := PlayerStatsData(form);
    if playerData.Err? {
      return Err(playerData.error);
    }
    r := AttachAll(rounds, playerData.value.0, playerData.value.1);
  }

  /** The rounds keep their number and order, and a team key reads `None`
      exactly when the window of that position has no player of the team. */
  lemma RoundsOfTeams(form: PageProps, k: nat)
    requires RoundsOf(form).Ok? && k < |RoundsOf(form).value|
    ensures var rounds := form.series.matches[FirstMatchIndex(form.series.matches, form.matchId).value].rounds;
      var data := PlayerStats(form).value;
      var round := RoundsOf(form).value[k];
      && |RoundsOf(form).value| == |rounds|
      && (Get(round, "team1Players") == Some(Null) <==> data.0[k] == [])
      && (Get(round, "team2Players") == Some(Null) <==> data.1[k] == [])
      && (forall key :: key != "team1Players" && key != "team2Players" ==> Get(round, key) == Get(rounds[k], key))
  {
    var rounds := form.series.matches[FirstMatchIndex(form.series.matches, form.matchId).value].rounds;
    var data := PlayerStats(form).value;
    AttachTeamsFields(rounds[k], data.0[k], data.1[k], "");
    forall key | key != "team1Players" && key != "team2Players"
      ensures Get(RoundsOf(form).value[k], key) == Get(rounds[k], key)
    {
      AttachTeamsFields(rounds[k], data.0[k], data.1[k], key);
    }
  }

  /** An exported row: cell values in column order. */
  type Row = seq<Value>

  /** The header: one string cell per column, naming, in order, the metadata
      keys and then the first round's keys. */
  function Header(info: Dict, first: Dict): (h: Row)
    ensures |h| == |Keys(info) + Keys(first)|
    ensures forall c :: 0 <= c < |h| ==> h[c] == Str((Keys(info) + Keys(first))[c])
  {
    seq(|info| + |first|, k requires 0 <= k < |info| + |first| =>
      if k < |info| then Str(info[k].0) else Str(first[k - |info|].0))
  }

  /** One data row per round: the metadata values, then the round's values. */
  function DataRows(info: Dict, rounds: seq<Dict>): (rows: seq<Row>)
    ensures |rows| == |rounds|
    ensures forall k :: 0 <= k < |rounds| ==> |rows[k]| == |info| + |rounds[k]|
  {
    seq(|rounds|, k requires 0 <= k < |rounds| => Values(info) + Values(rounds[k]))
  }

  /** When a round has the first round's keys in the same order, its data
      row lines up with the header: cell `c` of the row holds the value of the
      key that cell `c` of the header names. */
  lemma ColumnsAlign(info: Dict, rounds: seq<Dict>, k: nat, c: nat)
    requires 0 < |rounds| && k < |rounds| && Keys(rounds[k]) == Keys(rounds[0])
    requires c < |info| + |rounds[0]|
    ensures var h := Header(info, rounds[0]);
      var row := DataRows(info, rounds)[k];
      && |row| == |h|
      && (c < |info| ==> h[c] == Str(info[c].0) && row[c] == info[c].1)
      && (|info| <= c ==> h[c] == Str(rounds[k][c - |info|].0) && row[c] == rounds[k][c - |info|].1)
  {
    assert |Keys(rounds[k])| == |Keys(rounds[0])|;
    var row := DataRows(info, rounds)[k];
    assert row == Values(info) + Values(rounds[k]);
    if |info| <= c {
      var c' := c - |info|;
      assert rounds[0][c'].0 == Keys(rounds[0])[c'] == Keys(rounds[k])[c'] == rounds[k][c'].0;
    }
  }

  /** The rows of a match with metadata `info` and rounds `rounds`. */
  function MatchRows(info: Dict, rounds: seq<Dict>, addHeader: bool): seq<Row> {
    if rounds == [] then [Values(info)]
    else (if addHeader then [Header(info, rounds[0])] else []) + DataRows(info, rounds)
  }

  /** With no round, one row of exactly the metadata values; otherwise the
      optional header of the metadata keys and the first round's keys, then
      per round, in order, the metadata values followed by that round's
      values. */
  lemma MatchRowsShape(info: Dict, rounds: seq<Dict>, addHeader: bool)
    ensures var rows := MatchRows(info, rounds, addHeader);
      var h := if addHeader then 1 else 0;
      && (rounds == [] ==> rows == [Values(info)])
      && (rounds != [] ==>
            && |rows| == h + |rounds|
            && (addHeader ==> rows[0] == Header(info, rounds[0]))
            && forall k :: 0 <= k < |rounds| ==> rows[h + k] == Values(info) + Values(rounds[k]))
  {
    if rounds != [] {
      var rows := MatchRows(info, rounds, addHeader);
      var data := DataRows(info, rounds);
      if addHeader {
        assert rows == [Header(info, rounds[0])] + data;
        forall k | 0 <= k < |rounds| ensures rows[1 + k] == Values(info) + Values(rounds[k]) {
          assert rows[1 + k] == data[k];
        }
      } else {
        assert rows == data;
      }
    }
  }

  /** What `csv_rows` returns or raises for a parser whose page was decoded. */
  function ParsedRows(form: PageProps, addHeader: bool): (r: Result<seq<Row>>)
    ensures form.statusCode == Some(Int(500)) ==> r == Ok([])
  {
    if form.statusCode == Some(Int(500)) then Ok([])
    else
      var matchData :- MatchInfo(form);
      var rounds :- RoundsOf(form);
      Ok(MatchRows(matchData, rounds, addHeader))
  }

  /** `csv_rows` as written: a parser whose fetch was discarded never set
      `form`, and reading it raises. */
  function RowsAsWritten(form: Option<PageProps>, addHeader: bool): (r: Result<seq<Row>>)
    ensures form.None? ==> r == Err(AttributeError)
    ensures form.Some? ==> r == ParsedRows(form.value, addHeader)
  {
    match form
    case None => Err(AttributeError)
    case Some(f) => ParsedRows(f, addHeader)
  }

  /** `csv_rows` as its guard intends: a discarded fetch yields no rows. */
  function Rows(form: Option<PageProps>, addHeader: bool): (r: Result<seq<Row>>)
    ensures form.None? ==> r == Ok([])
  {
    match form
    case None => Ok([])
    case Some(f) => ParsedRows(f, addHeader)
  }

  /** A discarded fetch: the written `csv_rows` raises where the intended one
      tosses the match; on every decoded page the two agree. */
  lemma DiscardedFetch(form: Option<PageProps>, addHeader: bool)
    ensures form.None? ==> RowsAsWritten(form, addHeader) == Err(AttributeError) && Rows(form, addHeader) == Ok([])
    ensures form.Some? ==> RowsAsWritten(form, addHeader) == Rows(form, addHeader)
  {
  }

  /** A tossed match (no decoded page, or an error page) yields no rows. */
  lemma TossedMatch(form: Option<PageProps>, addHeader: bool)
    requires form.None? || form.value.statusCode == Some(Int(500))
    ensures Rows(form, addHeader) == Ok([])
  {
  }

  /** The rows of a decoded page that is not an error page are those of
      its metadata and its rounds with players attached. */
  lemma ParsedRowsShape(form: PageProps, addHeader: bool)
    requires ParsedRows(form, addHeader).Ok? && form.statusCode != Some(Int(500))
    ensures MatchInfo(form).Ok? && RoundsOf(form).Ok?
    ensures ParsedRows(form, addHeader).value == MatchRows(MatchInfo(form).value, RoundsOf(form).value, addHeader)
  {
  }

  /** The data rows of a round list, built one round at a time. */
  method BuildDataRows(info: Dict, rounds: seq<Dict>) returns (rows: seq<Row>)
    ensures rows == DataRows(info, rounds)
  {
    rows := [];
    var num := 0;
    while num < |rounds|
      invariant num <= |rounds|
      invariant rows == DataRows(info, rounds[..num])
    {
      rows := rows + [Values(info) + Values(rounds[num])];
      num := num + 1;
    }
    assert rounds[..num] == rounds;
  }

  /** The `output` list of `csv_rows`, filled row by row. */
  method FlattenRows(info: Dict, rounds: seq<Dict>, addHeader: bool) returns (output: seq<Row>)
    ensures output == MatchRows(info, rounds, addHeader)
  {
    output := [];
    if rounds == [] {
      output := output + [Values(info)];
    } else {
      if addHeader {
        output := output + [Header(info, rounds[0])];
      }
      var data := BuildDataRows(info, rounds);
      output := output + data;
    }
  }

  /** The corrected `csv_rows`: the tossed-match guard, then the metadata and
      rounds, then the rows built one round at a time. */
  method CsvRows(form: Option<PageProps>, addHeader: bool) returns (r: Result<seq<Row>>)
    ensures r == Rows(form, addHeader)
  {
    if form.None? || form.value.statusCode == Some(Int(500)) {
      return Ok([]);
    }
    var page := form.value;
    var matchData := GetMatchInfo(page);
    if matchData.Err? {
      return Err(matchData.error);
    }
    var rounds := GetRounds(page);
    if rounds.Err? {
      return Err(rounds.error);
    }
    var output := FlattenRows(matchData.value, rounds.value, addHeader);
    r := Ok(output);
  }
}
