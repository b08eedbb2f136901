/** The decoded `pageProps` of a match page, and locating the page's match in
    its series. */
module Payload {
  import opened Json
  import opened Outcome
  import opened LookupTables

  /** One entry of `series.matches`. */
  datatype Match = Match(
    id: int,
    mapName: Value,             // map.name
    startDate: Value,
    seriesMatchNumber: Value,
    patchId: Value,
    winningTeamNumber: Value,
    team1Score: Value,
    team2Score: Value,
    winCondition: Value,
    players: seq<Entry>,        // players[].player.{id, ign}
    rounds: seq<Dict>)

  /** The `series` section. */
  datatype Series = Series(
    parentEventName: Value,
    eventName: Value,
    startDate: Value,
    eventRegionId: Value,
    bestOf: Value,
    stage: Value,
    bracket: Value,
    team1Name: Value,           // team1.name
    team2Name: Value,           // team2.name
    team1Score: Value,
    team2Score: Value,
    matches: seq<Match>,
    playerStats: seq<Dict>)

  /** The `content` section: the reference tables. */
  datatype Content = Content(weapons: seq<Entry>, agents: seq<Entry>, regions: seq<Entry>)

  /** `props.pageProps` of a match page; `statusCode` is present on an error page. */
  datatype PageProps = PageProps(
    matchId: int,
    series: Series,
    economies: seq<Dict>,       // matchDetails.economies
    content: Content,
    statusCode: Option<Value>)

  /** The position of the first match of `matches` whose id is `matchId`. */
  function FirstMatchIndex(matches: seq<Match>, matchId: int): (r: Option<nat>)
    ensures r.Some? ==> r.value < |matches| && matches[r.value].id == matchId
    ensures r.Some? ==> forall k :: 0 <= k < r.value ==> matches[k].id != matchId
    ensures r.None? <==> forall k :: 0 <= k < |matches| ==> matches[k].id != matchId
    decreases |matches|
  {
    if matches == [] then None
    else if matches[0].id == matchId then Some(0)
    else match FirstMatchIndex(matches[1..], matchId)
      case None => None
      case Some(k) => Some(k + 1)
  }

  /** The `for num, match in enumerate(...)` scan that stops at the first match
      with the page's id; `index` stays `None` when there is none. */
  method FindMatchIndex(matches: seq<Match>, matchId: int) returns (index: Option<nat>)
    ensures index == FirstMatchIndex(matches, matchId)
  {
    index := None;
    var num := 0;
    while num < |matches|
      invariant 0 <= num <= |matches|
      invariant forall k :: 0 <= k < num ==> matches[k].id != matchId
    {
      if matches[num].id == matchId {
        index := Some(num);
        break;
      }
      num := num + 1;
    }
  }

  /** The keys of the metadata record, in the order the exported columns use. */
  const MetadataKeys: seq<string> := [
    "parentEvent", "eventName", "eventTime", "eventRegion", "bestOf", "stage",
    "bracket", "team1", "team2", "team1SeriesScore", "team2SeriesScore",
    "matchId", "mapName", "gameStartTime", "seriesMatchNumber", "patchId",
    "seriesWinningTeamNumber", "team1MatchScore", "team2MatchScore",
    "seriesWinCondition"]

  /** The `matchInfo` dictionary literal: series fields, the resolved event
      region, then the fields of the located match. */
  function Metadata(s: Series, region: string, matchId: int, m: Match): Dict {
    [("parentEvent", s.parentEventName),
     ("eventName", s.eventName),
     ("eventTime", s.startDate),
     ("eventRegion", Str(region)),
     ("bestOf", s.bestOf),
     ("stage", s.stage),
     ("bracket", s.bracket),
     ("team1", s.team1Name),
     ("team2", s.team2Name),
     ("team1SeriesScore", s.team1Score),
     ("team2SeriesScore", s.team2Score),
     ("matchId", Int(matchId)),
     ("mapName", m.mapName),
     ("gameStartTime", m.startDate),
     ("seriesMatchNumber", m.seriesMatchNumber),
     ("patchId", m.patchId),
     ("seriesWinningTeamNumber", m.winningTeamNumber),
     ("team1MatchScore", m.team1Score),
     ("team2MatchScore", m.team2Score),
     ("seriesWinCondition", m.winCondition)]
  }

  /** What `get_match_info` returns or raises. The region lookup is evaluated
      before the match index is used, so a missing region wins over a missing match. */
  function MatchInfo(form: PageProps): (r: Result<Dict>)
    ensures r.Ok? <==>
      (form.series.eventRegionId.Int? && form.series.eventRegionId.i in TableOf(form.content.regions)
       && FirstMatchIndex(form.series.matches, form.matchId).Some?)
    ensures LookupId(TableOf(form.content.regions), Regions, form.series.eventRegionId).Err? ==>
      r == Err(LookupMiss(Regions, form.series.eventRegionId))
  {
    var region :- LookupId(TableOf(form.content.regions), Regions, form.series.eventRegionId);
    match FirstMatchIndex(form.series.matches, form.matchId)
    case None => Err(MatchNotFound(form.matchId))
    case Some(index) =>
      Ok(Metadata(form.series, region, form.matchId, form.series.matches[index]))
  }

  /** The metadata record has the twenty keys in their fixed order, once each. */
  lemma MetadataKeysDistinct(s: Series, region: string, matchId: int, m: Match)
    ensures Keys(Metadata(s, region, matchId, m)) == MetadataKeys
    ensures DistinctKeys(Metadata(s, region, matchId, m))
  {
    var d := Metadata(s, region, matchId, m);
    assert Keys(d) == MetadataKeys;
    forall i, j | 0 <= i < j < |d| ensures d[i].0 != d[j].0 {
      assert d[i].0 == MetadataKeys[i] && d[j].0 == MetadataKeys[j];
    }
  }

  /** The first six columns read as the event fields of the series and the
      resolved event region. */
  lemma MetadataEventFields(s: Series, region: string, matchId: int, m: Match)
    ensures var d := Metadata(s, region, matchId, m);
      && Get(d, "parentEvent") == Some(s.parentEventName)
      && Get(d, "eventName") == Some(s.eventName)
      && Get(d, "eventTime") == Some(s.startDate)
      && Get(d, "eventRegion") == Some(Str(region))
      && Get(d, "bestOf") == Some(s.bestOf)
      && Get(d, "stage") == Some(s.stage)
  {
    var d := Metadata(s, region, matchId, m);
    MetadataKeysDistinct(s, region, matchId, m);
    GetDistinct(d, 0);
    GetDistinct(d, 1);
    GetDistinct(d, 2);
    GetDistinct(d, 3);
    GetDistinct(d, 4);
    GetDistinct(d, 5);
  }

  /** The next five columns read as the bracket, team and series-score
      fields of the series. */
  lemma MetadataTeamFields(s: Series, region: string, matchId: int, m: Match)
    ensures var d := Metadata(s, region, matchId, m);
      && Get(d, "bracket") == Some(s.bracket)
      && Get(d, "team1") == Some(s.team1Name)
      && Get(d, "team2") == Some(s.team2Name)
      && Get(d, "team1SeriesScore") == Some(s.team1Score)
      && Get(d, "team2SeriesScore") == Some(s.team2Score)
  {
    var d := Metadata(s, region, matchId, m);
    MetadataKeysDistinct(s, region, matchId, m);
    GetDistinct(d, 6);
    GetDistinct(d, 7);
    GetDistinct(d, 8);
    GetDistinct(d, 9);
    GetDistinct(d, 10);
  }

  /** The last nine columns read as the page's match id and the fields of the
      match. */
  lemma MetadataMatchFields(s: Series, region: string, matchId: int, m: Match)
    ensures var d := Metadata(s, region, matchId, m);
      && Get(d, "matchId") == Some(Int(matchId))
      && Get(d, "mapName") == Some(m.mapName)
      && Get(d, "gameStartTime") == Some(m.startDate)
      && Get(d, "seriesMatchNumber") == Some(m.seriesMatchNumber)
      && Get(d, "patchId") == Some(m.patchId)
      && Get(d, "seriesWinningTeamNumber") == Some(m.winningTeamNumber)
      && Get(d, "team1MatchScore") == Some(m.team1Score)
      && Get(d, "team2MatchScore") == Some(m.team2Score)
      && Get(d, "seriesWinCondition") == Some(m.winCondition)
  {
    var d := Metadata(s, region, matchId, m);
    MetadataKeysDistinct(s, region, matchId, m);
    GetDistinct(d, 11);
    GetDistinct(d, 12);
    GetDistinct(d, 13);
    GetDistinct(d, 14);
    GetDistinct(d, 15);
    GetDistinct(d, 16);
    GetDistinct(d, 17);
    GetDistinct(d, 18);
    GetDistinct(d, 19);
  }

  /** The twenty columns, once each in their fixed order: the series fields,
      the region table's name for the series' region id, and the fields of the
      first match carrying the page's id. */
  lemma MatchInfoFields(form: PageProps)
    requires MatchInfo(form).Ok?
    ensures var info := MatchInfo(form).value;
      var s := form.series;
      var m := s.matches[FirstMatchIndex(s.matches, form.matchId).value];
      && Keys(info) == MetadataKeys
      && DistinctKeys(info)
      && Get(info, "parentEvent") == Some(s.parentEventName)
      && Get(info, "eventName") == Some(s.eventName)
      && Get(info, "eventTime") == Some(s.startDate)
      && Get(info, "eventRegion") == Some(Str(TableOf(form.content.regions)[s.eventRegionId.i]))
      && Get(info, "bestOf") == Some(s.bestOf)
      && Get(info, "stage") == Some(s.stage)
      && Get(info, "bracket") == Some(s.bracket)
      && Get(info, "team1") == Some(s.team1Name)
      && Get(info, "team2") == Some(s.team2Name)
      && Get(info, "team1SeriesScore") == Some(s.team1Score)
      && Get(info, "team2SeriesScore") == Some(s.team2Score)
      && Get(info, "matchId") == Some(Int(m.id))
      && Get(info, "mapName") == Some(m.mapName)
      && Get(info, "gameStartTime") == Some(m.startDate)
      && Get(info, "seriesMatchNumber") == Some(m.seriesMatchNumber)
      && Get(info, "patchId") == Some(m.patchId)
      && Get(info, "seriesWinningTeamNumber") == Some(m.winningTeamNumber)
      && Get(info, "team1MatchScore") == Some(m.team1Score)
      && Get(info, "team2MatchScore") == Some(m.team2Score)
      && Get(info, "seriesWinCondition") == Some(m.winCondition)
  {
    var m := form.series.matches[FirstMatchIndex(form.series.matches, form.matchId).value];
    var region := TableOf(form.content.regions)[form.series.eventRegionId.i];
    assert MatchInfo(form).value == Metadata(form.series, region, form.matchId, m);
    MetadataKeysDistinct(form.series, region, form.matchId, m);
    MetadataEventFields(form.series, region, form.matchId, m);
    MetadataTeamFields(form.series, region, form.matchId, m);
    MetadataMatchFields(form.series, region, form.matchId, m);
  }
}
