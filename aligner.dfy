/** The removal join of `player_stats_data`: per-round player statistics are
    matched against the economy entries of the same window by
    (`playerId`, `roundNumber`), merged, their ids replaced by names, and routed
    to team 1 or team 2. */
module Aligner {
  import opened Json
  import opened Outcome
  import opened LookupTables

  /** The player, agent and weapon tables of one match. */
  datatype Tables = Tables(ign: map<int, string>, agents: map<int, string>, weapons: map<int, string>)

  /** `numPlayers = max(len(ignDict), 1)`: the window stride. */
  function NumPlayers(ign: map<int, string>): (n: nat)
    ensures n >= 1
    ensures |ign| >= 1 ==> n == |ign|
  {
    if |ign| >= 1 then |ign| else 1
  }

  /** The filter that keeps the stat records of the page's match. Reading
      `matchId` of a record without one raises. */
  function StatsOfMatch(stats: seq<Dict>, matchId: int): (r: Result<seq<Dict>>)
    ensures r.Ok? <==> forall k :: 0 <= k < |stats| ==> Get(stats[k], "matchId").Some?
    ensures r.Ok? ==> forall s :: s in r.value <==> s in stats && Get(s, "matchId") == Some(Int(matchId))
    ensures r.Ok? ==> |r.value| <= |stats|
    decreases |stats|
  {
    if stats == [] then Ok([])
    else
      assert forall k :: 1 <= k < |stats| ==> stats[k] == stats[1..][k - 1];
      assert forall s :: s in stats <==> s == stats[0] || s in stats[1..];
      var id :- Need(stats[0], "matchId");
      var rest :- StatsOfMatch(stats[1..], matchId);
      Ok(if id == Int(matchId) then [stats[0]] + rest else rest)
  }

  /** The positions, from `k` on and in ascending order, of the records whose
      `matchId` is the page's match id. */
  ghost function KeptPositions(stats: seq<Dict>, matchId: int, k: nat): (p: seq<nat>)
    requires k <= |stats|
    ensures forall m :: 0 <= m < |p| ==> k <= p[m] < |stats| && Get(stats[p[m]], "matchId") == Some(Int(matchId))
    ensures forall m, m' :: 0 <= m < m' < |p| ==> p[m] < p[m']
    ensures forall q :: k <= q < |stats| && Get(stats[q], "matchId") == Some(Int(matchId)) ==> q in p
    decreases |stats| - k
  {
    if k == |stats| then []
    else if Get(stats[k], "matchId") == Some(Int(matchId)) then [k] + KeptPositions(stats, matchId, k + 1)
    else KeptPositions(stats, matchId, k + 1)
  }

  /** The filter keeps, in their order and with their repetitions, exactly the
      records at the kept positions from `k` on. */
  lemma {:induction false} StatsOfMatchFrom(stats: seq<Dict>, matchId: int, k: nat)
    requires k <= |stats| && StatsOfMatch(stats[k..], matchId).Ok?
    ensures var r := StatsOfMatch(stats[k..], matchId).value;
      var p := KeptPositions(stats, matchId, k);
      |r| == |p| && forall m :: 0 <= m < |p| ==> r[m] == stats[p[m]]
    decreases |stats| - k
  {
    if k < |stats| {
      var tail := stats[k..];
      assert tail[0] == stats[k] && tail[1..] == stats[k + 1..];
      var id := Get(stats[k], "matchId").value;
      var rest := StatsOfMatch(stats[k + 1..], matchId);
      assert rest.Ok?;
      assert StatsOfMatch(tail, matchId).value ==
        if id == Int(matchId) then [stats[k]] + rest.value else rest.value;
      StatsOfMatchFrom(stats, matchId, k + 1);
    }
  }

  /** `[s for s in playerStats if s['matchId'] == matchId]`: the kept records
      are the records at the kept positions, in order. */
  lemma StatsOfMatchOrder(stats: seq<Dict>, matchId: int)
    requires StatsOfMatch(stats, matchId).Ok?
    ensures var r := StatsOfMatch(stats, matchId).value;
      var p := KeptPositions(stats, matchId, 0);
      |r| == |p| && forall m :: 0 <= m < |p| ==> r[m] == stats[p[m]]
  {
    assert stats[0..] == stats;
    StatsOfMatchFrom(stats, matchId, 0);
  }

  /** The join condition `stat['playerId'] == econ['playerId'] and
      stat['roundNumber'] == econ['roundNumber']`, read left to right and
      short-circuited; a missing key raises. */
  function KeysMatch(stat: Dict, econ: Dict): Result<bool>
  {
    var sp :- Need(stat, "playerId");
    var ep :- Need(econ, "playerId");
    if sp != ep then Ok(false)
    else
      var sr :- Need(stat, "roundNumber");
      var er :- Need(econ, "roundNumber");
      Ok(sr == er)
  }

  /** The join holds exactly when both records carry both keys with equal
      values; it raises only for a key one of them lacks, and a missing
      `roundNumber` is only noticed once the player ids agree. */
  lemma KeysMatchJoin(stat: Dict, econ: Dict)
    ensures var r := KeysMatch(stat, econ);
      && (r == Ok(true) <==>
           && Get(stat, "playerId").Some? && Get(stat, "playerId") == Get(econ, "playerId")
           && Get(stat, "roundNumber").Some? && Get(stat, "roundNumber") == Get(econ, "roundNumber"))
      && (r.Err? <==>
           || Get(stat, "playerId").None? || Get(econ, "playerId").None?
           || (Get(stat, "playerId") == Get(econ, "playerId")
               && (Get(stat, "roundNumber").None? || Get(econ, "roundNumber").None?)))
      && (r.Err? ==> r.error == KeyError("playerId") || r.error == KeyError("roundNumber"))
  {
  }

  /** The `for player in econWindow` scan from position `k`: the first entry
      the stat record joins with, or `None`. */
  function PartnerFrom(stat: Dict, pool: seq<Dict>, k: nat): (r: Result<Option<nat>>)
    requires k <= |pool|
    ensures r.Ok? && r.value.Some? ==>
      && k <= r.value.value < |pool|
      && KeysMatch(stat, pool[r.value.value]) == Ok(true)
      && forall q :: k <= q < r.value.value ==> KeysMatch(stat, pool[q]) == Ok(false)
    ensures r == Ok(None) <==> forall q :: k <= q < |pool| ==> KeysMatch(stat, pool[q]) == Ok(false)
    ensures r.Err? ==> exists q :: k <= q < |pool| && KeysMatch(stat, pool[q]) == Err(r.error)
    decreases |pool| - k
  {
    if k == |pool| then Ok(None)
    else
      var m :- KeysMatch(stat, pool[k]);
      if m then Ok(Some(k)) else PartnerFrom(stat, pool, k + 1)
  }

  /** The scan as a loop: it stops at the first entry that joins. */
  method FindPartner(stat: Dict, pool: seq<Dict>) returns (r: Result<Option<nat>>)
    ensures r == PartnerFrom(stat, pool, 0)
  {
    var k := 0;
    while k < |pool|
      invariant k <= |pool|
      invariant PartnerFrom(stat, pool, 0) == PartnerFrom(stat, pool, k)
    {
      var m := KeysMatch(stat, pool[k]);
      if m.Err? {
        return Err(m.error);
      }
      if m.value {
        return Ok(Some(k));
      }
      k := k + 1;
    }
    return Ok(None);
  }

  /** Keys that resolution writes or deletes. */
  const ResolvedKeys: set<string> := {"playerId", "agentId", "weaponId", "playerIgn", "agent", "weaponName"}

  /** `weaponName` is added only when `weaponId` is truthy; a falsy id is
      never looked up. */
  function WithWeaponName(d: Dict, weaponId: Value, weapons: map<int, string>): Result<Dict> {
    if Truthy(weaponId) then
      var w :- LookupId(weapons, Weapons, weaponId);
      Ok(Set(d, "weaponName", Str(w)))
    else Ok(d)
  }

  /** One joined pair: `econ.update(stat)`, then the three ids replaced by
      `playerIgn`, `agent` and (for a truthy weapon id) `weaponName`, then the
      three id keys deleted. The `del`s cannot raise: each key was just read. */
  function ResolvePair(stat: Dict, econ: Dict, t: Tables): Result<Dict> {
    var merged := Update(econ, stat);
    var pid :- Need(merged, "playerId");
    var ign :- LookupId(t.ign, Players, pid);
    var d1 := Set(merged, "playerIgn", Str(ign));
    var aid :- Need(d1, "agentId");
    var agent :- LookupId(t.agents, Agents, aid);
    var d2 := Set(d1, "agent", Str(agent));
    var wid :- Need(d2, "weaponId");
    var d3 :- WithWeaponName(d2, wid, t.weapons);
    Ok(Delete(Delete(Delete(d3, "playerId"), "agentId"), "weaponId"))
  }

  /** The weapon step succeeds exactly when a truthy id is in the weapon
      table; it writes `weaponName` for a truthy id and nothing otherwise. */
  lemma WeaponNameFields(d: Dict, weaponId: Value, weapons: map<int, string>, k: string)
    ensures var r := WithWeaponName(d, weaponId, weapons);
      && (r.Ok? <==> (Truthy(weaponId) ==> weaponId.Int? && weaponId.i in weapons))
      && (r.Ok? ==>
            Get(r.value, k) ==
              (if k == "weaponName" && Truthy(weaponId) then Some(Str(weapons[weaponId.i])) else Get(d, k)))
  {
    if Truthy(weaponId) && weaponId.Int? && weaponId.i in weapons {
      GetSet(d, "weaponName", Str(weapons[weaponId.i]), k);
    }
  }

  /** Deleting the three id keys removes them and nothing else. */
  lemma DeleteIds(d: Dict, k: string)
    ensures Get(Delete(Delete(Delete(d, "playerId"), "agentId"), "weaponId"), k) ==
      if k == "playerId" || k == "agentId" || k == "weaponId" then None else Get(d, k)
  {
    GetDelete(d, "playerId", k);
    GetDelete(Delete(d, "playerId"), "agentId", k);
    GetDelete(Delete(Delete(d, "playerId"), "agentId"), "weaponId", k);
  }

  /** The resolved record: the economy fields overridden by the stat fields,
      with `playerIgn`, `agent` and `weaponName` taken from the tables and the
      raw ids gone. It exists exactly when every lookup succeeds. */
  lemma ResolvedFields(stat: Dict, econ: Dict, t: Tables)
    requires DistinctKeys(stat)
    ensures var r := ResolvePair(stat, econ, t);
      var pid := Overlay(econ, stat, "playerId");
      var aid := Overlay(econ, stat, "agentId");
      var wid := Overlay(econ, stat, "weaponId");
      && (r.Ok? <==>
           && pid.Some? && pid.value.Int? && pid.value.i in t.ign
           && aid.Some? && aid.value.Int? && aid.value.i in t.agents
           && wid.Some? && (Truthy(wid.value) ==> wid.value.Int? && wid.value.i in t.weapons))
      && (r.Ok? ==>
           && Get(r.value, "playerIgn") == Some(Str(t.ign[pid.value.i]))
           && Get(r.value, "agent") == Some(Str(t.agents[aid.value.i]))
           && Get(r.value, "weaponName") ==
                (if Truthy(wid.value) then Some(Str(t.weapons[wid.value.i]))
                 else Overlay(econ, stat, "weaponName"))
           && Get(r.value, "playerId").None?
           && Get(r.value, "agentId").None?
           && Get(r.value, "weaponId").None?
           && forall k :: k !in ResolvedKeys ==> Get(r.value, k) == Overlay(econ, stat, k))
  {
    var merged := Update(econ, stat);
    forall k {
      GetUpdate(econ, stat, k);
    }
    var pid := Overlay(econ, stat, "playerId");
    if pid.Some? && pid.value.Int? && pid.value.i in t.ign {
      var d1 := Set(merged, "playerIgn", Str(t.ign[pid.value.i]));
      forall k {
        GetSet(merged, "playerIgn", Str(t.ign[pid.value.i]), k);
      }
      var aid := Overlay(econ, stat, "agentId");
      if aid.Some? && aid.value.Int? && aid.value.i in t.agents {
        var d2 := Set(d1, "agent", Str(t.agents[aid.value.i]));
        forall k {
          GetSet(d1, "agent", Str(t.agents[aid.value.i]), k);
        }
        var wid := Overlay(econ, stat, "weaponId");
        if wid.Some? {
          WeaponNameFields(d2, wid.value, t.weapons, "");
          var d3r := WithWeaponName(d2, wid.value, t.weapons);
          if d3r.Ok? {
            var r := Delete(Delete(Delete(d3r.value, "playerId"), "agentId"), "weaponId");
            forall k
              ensures Get(r, k) ==
                if k == "playerId" || k == "agentId" || k == "weaponId" then None
                else if k == "weaponName" && Truthy(wid.value) then Some(Str(t.weapons[wid.value.i]))
                else Get(d2, k)
            {
              WeaponNameFields(d2, wid.value, t.weapons, k);
              DeleteIds(d3r.value, k);
            }
          }
        }
      }
    }
  }

  /** The working state of one window: the two team lists and what is left of
      the window's economy slice. */
  datatype WindowState = WindowState(team1: seq<Dict>, team2: seq<Dict>, pool: seq<Dict>)

  /** `econWindow.pop(p)` */
  function RemoveAt(pool: seq<Dict>, p: nat): seq<Dict>
    requires p < |pool|
  {
    pool[..p] + pool[p + 1..]
  }

  /** One stat record of a window: join it with the first remaining entry that
      has its key, consume that entry, resolve the pair and route it by
      `teamNumber`; with no such entry nothing changes. */
  function StepStat(st: WindowState, stat: Dict, t: Tables): Result<WindowState> {
    var p :- PartnerFrom(stat, st.pool, 0);
    match p
    case None => Ok(st)
    case Some(q) =>
      var rec :- ResolvePair(stat, st.pool[q], t);
      var team :- Need(rec, "teamNumber");
      var pool := RemoveAt(st.pool, q);
      if team == Int(1) then Ok(WindowState(st.team1 + [rec], st.team2, pool))
      else Ok(WindowState(st.team1, st.team2 + [rec], pool))
  }

  /** The `for j in range(i, i+n)` loop from position `j` on, starting from
      state `st`. The inner `for player in econWindow` reads `playerStats[j]`
      only while the economy slice still holds an entry, so a position past the
      last stat record raises only then. */
  function WindowFrom(stats: seq<Dict>, j: nat, end: nat, st: WindowState, t: Tables): Result<WindowState>
    decreases end - j
  {
    if j >= end then Ok(st)
    else if st.pool == [] then WindowFrom(stats, j + 1, end, st, t)
    else if j >= |stats| then Err(StatsIndexError(j))
    else
      var st' :- StepStat(st, stats[j], t);
      WindowFrom(stats, j + 1, end, st', t)
  }

  /** A resolved record routed to team 1: `teamNumber == 1`. */
  predicate OnTeam1(rec: Dict) {
    Get(rec, "teamNumber") == Some(Int(1))
  }

  /** A resolved record routed to team 2: any other `teamNumber`. */
  predicate OnTeam2(rec: Dict) {
    Get(rec, "teamNumber").Some? && Get(rec, "teamNumber") != Some(Int(1))
  }

  /** `rec` is the resolution of a stat record at a position in `lo..hi` with
      an economy entry of `pool` that it joins with. */
  ghost predicate Produced(rec: Dict, stats: seq<Dict>, lo: nat, hi: nat, pool: seq<Dict>, t: Tables) {
    exists q, p :: lo <= q < hi && q < |stats| && 0 <= p < |pool|
      && KeysMatch(stats[q], pool[p]) == Ok(true) && ResolvePair(stats[q], pool[p], t) == Ok(rec)
  }

  /** One stat record: with no entry of the remaining slice sharing its
      (`playerId`, `roundNumber`) it produces nothing; otherwise the first such
      entry is consumed and the resolved pair is appended to exactly one team
      list, chosen by `teamNumber`. */
  lemma StepStatEffect(st: WindowState, stat: Dict, t: Tables)
    requires StepStat(st, stat, t).Ok?
    ensures var st' := StepStat(st, stat, t).value;
      && ((forall q :: 0 <= q < |st.pool| ==> KeysMatch(stat, st.pool[q]) == Ok(false)) ==> st' == st)
      && (forall q :: (0 <= q < |st.pool| && KeysMatch(stat, st.pool[q]) == Ok(true)
             && (forall q' :: 0 <= q' < q ==> KeysMatch(stat, st.pool[q']) == Ok(false))) ==>
            && ResolvePair(stat, st.pool[q], t).Ok?
            && st'.pool == RemoveAt(st.pool, q)
            && var rec := ResolvePair(stat, st.pool[q], t).value;
               if OnTeam1(rec) then st'.team1 == st.team1 + [rec] && st'.team2 == st.team2
               else OnTeam2(rec) && st'.team1 == st.team1 && st'.team2 == st.team2 + [rec])
  {
    var p := PartnerFrom(stat, st.pool, 0);
    if p.value.Some? {
      forall q | 0 <= q < |st.pool| && KeysMatch(stat, st.pool[q]) == Ok(true)
                 && (forall q' :: 0 <= q' < q ==> KeysMatch(stat, st.pool[q']) == Ok(false))
        ensures q == p.value.value
      {
      }
    }
  }

  lemma RemoveAtShrinks(pool: seq<Dict>, p: nat)
    requires p < |pool|
    ensures |RemoveAt(pool, p)| == |pool| - 1
    ensures multiset(RemoveAt(pool, p)) + multiset{pool[p]} == multiset(pool)
  {
    assert pool == pool[..p] + [pool[p]] + pool[p + 1..];
  }

  /** `rec` is the resolution of `stat` with an entry of `pool` it joins. */
  ghost predicate JoinedFrom(rec: Dict, stat: Dict, pool: seq<Dict>, t: Tables) {
    exists p :: 0 <= p < |pool| && KeysMatch(stat, pool[p]) == Ok(true) && ResolvePair(stat, pool[p], t) == Ok(rec)
  }

  /** `st'` is `st` with the slice entry at `q`, which joins `stat`,
      consumed and its resolution with `stat` appended to the side that the
      resolution's `teamNumber` names. */
  ghost predicate ConsumedAt(st: WindowState, st': WindowState, stat: Dict, t: Tables, q: nat) {
    && q < |st.pool| && KeysMatch(stat, st.pool[q]) == Ok(true)
    && ResolvePair(stat, st.pool[q], t).Ok?
    && st'.pool == RemoveAt(st.pool, q)
    && var rec := ResolvePair(stat, st.pool[q], t).value;
       if OnTeam1(rec) then st'.team1 == st.team1 + [rec] && st'.team2 == st.team2
       else OnTeam2(rec) && st'.team1 == st.team1 && st'.team2 == st.team2 + [rec]
  }

  /** One stat record leaves the state alone when no entry joins it, and
      otherwise consumes the first entry that does. */
  lemma StepStatShape(st: WindowState, stat: Dict, t: Tables)
    requires StepStat(st, stat, t).Ok?
    ensures PartnerFrom(stat, st.pool, 0).Ok?
    ensures PartnerFrom(stat, st.pool, 0).value.None? ==> StepStat(st, stat, t).value == st
    ensures PartnerFrom(stat, st.pool, 0).value.Some? ==>
      ConsumedAt(st, StepStat(st, stat, t).value, stat, t, PartnerFrom(stat, st.pool, 0).value.value)
  {
  }

  /** A consumed entry in numbers: one record appears, on the side its
      `teamNumber` names, and exactly one entry of the slice is used up. */
  lemma ConsumedCounts(st: WindowState, st': WindowState, stat: Dict, t: Tables, q: nat)
    requires ConsumedAt(st, st', stat, t, q)
    ensures |st'.team1| + |st'.team2| + |st'.pool| == |st.team1| + |st.team2| + |st.pool|
    ensures |st'.team1| + |st'.team2| == |st.team1| + |st.team2| + 1
    ensures multiset(st'.pool) <= multiset(st.pool)
    ensures |st.team1| <= |st'.team1| && st'.team1[..|st.team1|] == st.team1
    ensures |st.team2| <= |st'.team2| && st'.team2[..|st.team2|] == st.team2
  {
    RemoveAtShrinks(st.pool, q);
  }

  /** One stat record in numbers: at most one record appears and it used up
      exactly one entry of the slice; earlier records stay. */
  lemma StepStatCounts(st: WindowState, stat: Dict, t: Tables)
    requires StepStat(st, stat, t).Ok?
    ensures var st' := StepStat(st, stat, t).value;
      && |st'.team1| + |st'.team2| + |st'.pool| == |st.team1| + |st.team2| + |st.pool|
      && |st'.team1| + |st'.team2| <= |st.team1| + |st.team2| + 1
      && multiset(st'.pool) <= multiset(st.pool)
      && |st.team1| <= |st'.team1| && st'.team1[..|st.team1|] == st.team1
      && |st.team2| <= |st'.team2| && st'.team2[..|st.team2|] == st.team2
  {
    StepStatShape(st, stat, t);
    var p := PartnerFrom(stat, st.pool, 0).value;
    if p.Some? {
      ConsumedCounts(st, StepStat(st, stat, t).value, stat, t, p.value);
    }
  }

  /** The record one stat record adds, if any, is on the side its
      `teamNumber` names and resolves `stat` with a slice entry it joins. */
  lemma StepStatRouted(st: WindowState, stat: Dict, t: Tables)
    requires StepStat(st, stat, t).Ok?
    ensures var st' := StepStat(st, stat, t).value;
      && (forall k :: |st.team1| <= k < |st'.team1| ==> OnTeam1(st'.team1[k]) && JoinedFrom(st'.team1[k], stat, st.pool, t))
      && (forall k :: |st.team2| <= k < |st'.team2| ==> OnTeam2(st'.team2[k]) && JoinedFrom(st'.team2[k], stat, st.pool, t))
  {
    StepStatShape(st, stat, t);
    var p := PartnerFrom(stat, st.pool, 0).value;
    if p.Some? {
      var q := p.value;
      var rec := ResolvePair(stat, st.pool[q], t).value;
      assert JoinedFrom(rec, stat, st.pool, t);
    }
  }

  /** The state after position `j` of a window: one stat record joined when
      the slice is not empty, the state unchanged otherwise. */
  function Advance(stats: seq<Dict>, j: nat, st: WindowState, t: Tables): Result<WindowState> {
    if st.pool != [] && j < |stats| then StepStat(st, stats[j], t) else Ok(st)
  }

  /** A window that completes went through every position, each completing. */
  lemma WindowFromUnfold(stats: seq<Dict>, j: nat, end: nat, st: WindowState, t: Tables)
    requires j < end && WindowFrom(stats, j, end, st, t).Ok?
    ensures Advance(stats, j, st, t).Ok?
    ensures WindowFrom(stats, j, end, st, t) == WindowFrom(stats, j + 1, end, Advance(stats, j, st, t).value, t)
  {
  }

  /** A window in numbers: every resolved record consumed its own economy
      entry (the slice loses exactly as many entries as records were produced,
      and never gains one), at most one record appears per stat position, and
      records already in the team lists stay where they are. */
  lemma {:induction false} WindowFromCounts(stats: seq<Dict>, j: nat, end: nat, st: WindowState, t: Tables)
    requires j <= end && WindowFrom(stats, j, end, st, t).Ok?
    ensures var st' := WindowFrom(stats, j, end, st, t).value;
      && |st'.team1| + |st'.team2| + |st'.pool| == |st.team1| + |st.team2| + |st.pool|
      && |st'.team1| + |st'.team2| <= |st.team1| + |st.team2| + (end - j)
      && multiset(st'.pool) <= multiset(st.pool)
      && |st.team1| <= |st'.team1| && st'.team1[..|st.team1|] == st.team1
      && |st.team2| <= |st'.team2| && st'.team2[..|st.team2|] == st.team2
    decreases end - j
  {
    if j < end {
      WindowFromUnfold(stats, j, end, st, t);
      var st1 := Advance(stats, j, st, t).value;
      if st.pool != [] && j < |stats| {
        StepStatCounts(st, stats[j], t);
      }
      WindowFromCounts(stats, j + 1, end, st1, t);
      var st' := WindowFrom(stats, j, end, st, t).value;
      assert st'.team1[..|st.team1|] == st'.team1[..|st1.team1|][..|st.team1|];
      assert st'.team2[..|st.team2|] == st'.team2[..|st1.team2|][..|st.team2|];
    }
  }

  /** Each record a window adds is routed by its `teamNumber` and is the
      resolution of a stat record of the window with a slice entry it joins. */
  lemma {:induction false} WindowFromRouted(stats: seq<Dict>, j: nat, end: nat, st: WindowState, t: Tables)
    requires j <= end && WindowFrom(stats, j, end, st, t).Ok?
    ensures var st' := WindowFrom(stats, j, end, st, t).value;
      && (forall k :: |st.team1| <= k < |st'.team1| ==>
            OnTeam1(st'.team1[k]) && Produced(st'.team1[k], stats, j, end, st.pool, t))
      && (forall k :: |st.team2| <= k < |st'.team2| ==>
            OnTeam2(st'.team2[k]) && Produced(st'.team2[k], stats, j, end, st.pool, t))
    decreases end - j
  {
    if j < end {
      WindowFromUnfold(stats, j, end, st, t);
      var st1 := Advance(stats, j, st, t).value;
      if st.pool != [] && j < |stats| {
        StepStatCounts(st, stats[j], t);
        StepStatRouted(st, stats[j], t);
      }
      WindowFromCounts(stats, j + 1, end, st1, t);
      WindowFromRouted(stats, j + 1, end, st1, t);
      var st' := WindowFrom(stats, j, end, st, t).value;
      forall k | |st.team1| <= k < |st'.team1|
        ensures OnTeam1(st'.team1[k]) && Produced(st'.team1[k], stats, j, end, st.pool, t)
      {
        if k >= |st1.team1| {
          ProducedWiden(st'.team1[k], stats, j, end, st1.pool, st.pool, t);
        } else {
          assert st'.team1[k] == st'.team1[..|st1.team1|][k] == st1.team1[k];
          ProducedHere(st'.team1[k], stats, j, end, st.pool, t);
        }
      }
      forall k | |st.team2| <= k < |st'.team2|
        ensures OnTeam2(st'.team2[k]) && Produced(st'.team2[k], stats, j, end, st.pool, t)
      {
        if k >= |st1.team2| {
          ProducedWiden(st'.team2[k], stats, j, end, st1.pool, st.pool, t);
        } else {
          assert st'.team2[k] == st'.team2[..|st1.team2|][k] == st1.team2[k];
          ProducedHere(st'.team2[k], stats, j, end, st.pool, t);
        }
      }
    }
  }

  lemma ProducedHere(rec: Dict, stats: seq<Dict>, j: nat, end: nat, pool: seq<Dict>, t: Tables)
    requires j < end && j < |stats| && JoinedFrom(rec, stats[j], pool, t)
    ensures Produced(rec, stats, j, end, pool, t)
  {
    var p :| 0 <= p < |pool| && KeysMatch(stats[j], pool[p]) == Ok(true) && ResolvePair(stats[j], pool[p], t) == Ok(rec);
  }

  /** A record produced from later positions and a smaller slice is produced
      from the whole window and the larger slice. */
  lemma ProducedWiden(rec: Dict, stats: seq<Dict>, j: nat, end: nat, small: seq<Dict>, large: seq<Dict>, t: Tables)
    requires Produced(rec, stats, j + 1, end, small, t)
    requires multiset(small) <= multiset(large)
    ensures Produced(rec, stats, j, end, large, t)
  {
    var q, p :| j <= q < end && q < |stats| && 0 <= p < |small|
      && KeysMatch(stats[q], small[p]) == Ok(true) && ResolvePair(stats[q], small[p], t) == Ok(rec);
    assert small[p] in multiset(small);
    assert small[p] in large;
    var p' :| 0 <= p' < |large| && large[p'] == small[p];
  }

  /** The (`playerId`, `roundNumber`) key a record is joined by. */
  function KeyPair(rec: Dict): (Option<Value>, Option<Value>) {
    (Get(rec, "playerId"), Get(rec, "roundNumber"))
  }

  /** Some entry of `pool` joins `stat`. */
  ghost predicate Joinable(stat: Dict, pool: seq<Dict>) {
    exists p :: 0 <= p < |pool| && KeysMatch(stat, pool[p]) == Ok(true)
  }

  /** Consuming the entry another stat record joined leaves a record with a
      different key still joinable. */
  lemma JoinableAfterRemove(other: Dict, stat: Dict, pool: seq<Dict>, q: nat)
    requires q < |pool| && KeysMatch(stat, pool[q]) == Ok(true)
    requires Joinable(other, pool) && KeyPair(other) != KeyPair(stat)
    ensures Joinable(other, RemoveAt(pool, q))
  {
    var p :| 0 <= p < |pool| && KeysMatch(other, pool[p]) == Ok(true);
    KeysMatchJoin(other, pool[p]);
    KeysMatchJoin(stat, pool[q]);
    if p == q {
      assert false;
    }
    var small := RemoveAt(pool, q);
    var p' := if p < q then p else p - 1;
    assert small[p'] == pool[p];
  }

  /** A stat record some entry joins consumes the first such entry. */
  lemma StepStatJoins(st: WindowState, stat: Dict, t: Tables)
    requires StepStat(st, stat, t).Ok? && Joinable(stat, st.pool)
    ensures PartnerFrom(stat, st.pool, 0).Ok? && PartnerFrom(stat, st.pool, 0).value.Some?
    ensures ConsumedAt(st, StepStat(st, stat, t).value, stat, t, PartnerFrom(stat, st.pool, 0).value.value)
  {
    StepStatShape(st, stat, t);
    var p :| 0 <= p < |st.pool| && KeysMatch(stat, st.pool[p]) == Ok(true);
  }

  /** The stat records at positions `lo..hi`, all inside the list, have
      pairwise different keys. */
  ghost predicate DistinctPairs(stats: seq<Dict>, lo: nat, hi: nat) {
    hi <= |stats| && forall a, b :: lo <= a < b < hi ==> KeyPair(stats[a]) != KeyPair(stats[b])
  }

  /** Every stat record at positions `lo..hi` finds a joining entry in `pool`. */
  ghost predicate AllJoinable(stats: seq<Dict>, lo: nat, hi: nat, pool: seq<Dict>) {
    hi <= |stats| && forall a :: lo <= a < hi ==> Joinable(stats[a], pool)
  }

  /** Consuming the entry the record at `j` joined keeps the later records of
      the window joinable. */
  lemma AllJoinableAfter(stats: seq<Dict>, j: nat, end: nat, pool: seq<Dict>, q: nat)
    requires j < end && DistinctPairs(stats, j, end) && AllJoinable(stats, j + 1, end, pool)
    requires q < |pool| && KeysMatch(stats[j], pool[q]) == Ok(true)
    ensures AllJoinable(stats, j + 1, end, RemoveAt(pool, q))
  {
    forall a | j + 1 <= a < end
      ensures Joinable(stats[a], RemoveAt(pool, q))
    {
      JoinableAfterRemove(stats[a], stats[j], pool, q);
    }
  }

  /** The first position of such a window consumes one entry of the slice
      for one new record, and leaves the later positions joinable. */
  lemma WindowFullStep(stats: seq<Dict>, j: nat, next: nat, end: nat, st: WindowState, t: Tables)
    returns (st1: WindowState)
    requires j < end && next == j + 1 && WindowFrom(stats, j, end, st, t).Ok?
    requires DistinctPairs(stats, j, end) && AllJoinable(stats, j, end, st.pool)
    ensures WindowFrom(stats, j, end, st, t) == WindowFrom(stats, next, end, st1, t)
    ensures |st1.team1| + |st1.team2| == |st.team1| + |st.team2| + 1
    ensures |st1.pool| + 1 == |st.pool|
    ensures DistinctPairs(stats, next, end) && AllJoinable(stats, next, end, st1.pool)
  {
    assert Joinable(stats[j], st.pool);
    assert st.pool != [] && j < |stats|;
    WindowFromUnfold(stats, j, end, st, t);
    assert Advance(stats, j, st, t) == StepStat(st, stats[j], t);
    StepStatJoins(st, stats[j], t);
    var q := PartnerFrom(stats[j], st.pool, 0).value.value;
    st1 := StepStat(st, stats[j], t).value;
    ConsumedCounts(st, st1, stats[j], t, q);
    AllJoinableAfter(stats, j, end, st.pool, q);
  }

  /** A window whose stat records all lie inside the list, have pairwise
      different keys, and each find a joining entry in the slice adds exactly
      one record per position, each consuming one entry of the slice. */
  lemma {:induction false} WindowFromFull(stats: seq<Dict>, j: nat, end: nat, st: WindowState, t: Tables)
    requires j <= end && WindowFrom(stats, j, end, st, t).Ok?
    requires DistinctPairs(stats, j, end) && AllJoinable(stats, j, end, st.pool)
    ensures var st' := WindowFrom(stats, j, end, st, t).value;
      && |st'.team1| + |st'.team2| == |st.team1| + |st.team2| + (end - j)
      && |st'.pool| + (end - j) == |st.pool|
    decreases end - j
  {
    if j < end {
      var next := j + 1;
      var st1 := WindowFullStep(stats, j, next, end, st, t);
      WindowFromFull(stats, next, end, st1, t);
    }
  }

  /** Between `st` and `st'` a record was added, on either side, that
      resolves `stat` with an entry of `pool` it joins. */
  ghost predicate AddedFor(st: WindowState, st': WindowState, stat: Dict, pool: seq<Dict>, t: Tables) {
    || (exists k :: |st.team1| <= k < |st'.team1| && JoinedFrom(st'.team1[k], stat, pool, t))
    || (exists k :: |st.team2| <= k < |st'.team2| && JoinedFrom(st'.team2[k], stat, pool, t))
  }

  /** A resolution with an entry of a smaller slice is one with an entry of
      the larger slice. */
  lemma JoinedWiden(rec: Dict, stat: Dict, small: seq<Dict>, large: seq<Dict>, t: Tables)
    requires JoinedFrom(rec, stat, small, t) && multiset(small) <= multiset(large)
    ensures JoinedFrom(rec, stat, large, t)
  {
    var p :| 0 <= p < |small| && KeysMatch(stat, small[p]) == Ok(true) && ResolvePair(stat, small[p], t) == Ok(rec);
    assert small[p] in multiset(small);
    assert small[p] in large;
    var p' :| 0 <= p' < |large| && large[p'] == small[p];
  }

  /** A record added after a later state, from a smaller slice, is added
      after an earlier state from the larger slice. */
  lemma AddedWiden(st: WindowState, st1: WindowState, st': WindowState, stat: Dict,
                   small: seq<Dict>, large: seq<Dict>, t: Tables)
    requires |st.team1| <= |st1.team1| && |st.team2| <= |st1.team2|
    requires AddedFor(st1, st', stat, small, t) && multiset(small) <= multiset(large)
    ensures AddedFor(st, st', stat, large, t)
  {
    if exists k :: |st1.team1| <= k < |st'.team1| && JoinedFrom(st'.team1[k], stat, small, t) {
      var k :| |st1.team1| <= k < |st'.team1| && JoinedFrom(st'.team1[k], stat, small, t);
      JoinedWiden(st'.team1[k], stat, small, large, t);
    } else {
      var k :| |st1.team2| <= k < |st'.team2| && JoinedFrom(st'.team2[k], stat, small, t);
      JoinedWiden(st'.team2[k], stat, small, large, t);
    }
  }

  /** The record a consumed entry adds stays in the lists of every later
      state that keeps the lists of `st1` as prefixes. */
  lemma AddedHere(st: WindowState, st1: WindowState, st': WindowState, stat: Dict, t: Tables, q: nat)
    requires ConsumedAt(st, st1, stat, t, q)
    requires |st1.team1| <= |st'.team1| && st'.team1[..|st1.team1|] == st1.team1
    requires |st1.team2| <= |st'.team2| && st'.team2[..|st1.team2|] == st1.team2
    ensures AddedFor(st, st', stat, st.pool, t)
  {
    var rec := ResolvePair(stat, st.pool[q], t).value;
    assert JoinedFrom(rec, stat, st.pool, t);
    if OnTeam1(rec) {
      var k := |st.team1|;
      assert st'.team1[k] == st1.team1[k] == rec;
    } else {
      var k := |st.team2|;
      assert st'.team2[k] == st1.team2[k] == rec;
    }
  }

  /** A stat record with a key different from the one just joined stays
      joinable after that stat record's step. */
  lemma StepKeeps(st: WindowState, stat: Dict, other: Dict, t: Tables)
    requires StepStat(st, stat, t).Ok?
    requires Joinable(other, st.pool) && KeyPair(other) != KeyPair(stat)
    ensures Joinable(other, StepStat(st, stat, t).value.pool)
  {
    StepStatShape(st, stat, t);
    var p := PartnerFrom(stat, st.pool, 0).value;
    if p.Some? {
      JoinableAfterRemove(other, stat, st.pool, p.value);
    }
  }

  /** A stat record no entry of the slice joins leaves the state alone. */
  lemma StepStatIdle(st: WindowState, stat: Dict, t: Tables)
    requires StepStat(st, stat, t).Ok? && !Joinable(stat, st.pool)
    ensures StepStat(st, stat, t).value == st
  {
    StepStatShape(st, stat, t);
    var p := PartnerFrom(stat, st.pool, 0).value;
    if p.Some? {
      assert false;
    }
  }

  /** The first position of a window of pairwise different keys: the stat
      record there adds its record when it is joinable, and every later
      position joinable before the step is joinable after it. */
  lemma WindowEachStep(stats: seq<Dict>, j: nat, next: nat, end: nat, st: WindowState, t: Tables)
    returns (st1: WindowState)
    requires j < end && next == j + 1 && WindowFrom(stats, j, end, st, t).Ok?
    requires DistinctPairs(stats, j, end) && st.pool != []
    ensures st1 == StepStat(st, stats[j], t).value
    ensures WindowFrom(stats, j, end, st, t) == WindowFrom(stats, next, end, st1, t)
    ensures Joinable(stats[j], st.pool) ==> exists q :: ConsumedAt(st, st1, stats[j], t, q)
    ensures !Joinable(stats[j], st.pool) ==> st1 == st
    ensures forall a :: next <= a < end && Joinable(stats[a], st.pool) ==> Joinable(stats[a], st1.pool)
  {
    WindowFromUnfold(stats, j, end, st, t);
    assert Advance(stats, j, st, t) == StepStat(st, stats[j], t);
    st1 := StepStat(st, stats[j], t).value;
    if Joinable(stats[j], st.pool) {
      StepStatJoins(st, stats[j], t);
      var q := PartnerFrom(stats[j], st.pool, 0).value.value;
      assert ConsumedAt(st, st1, stats[j], t, q);
    } else {
      StepStatIdle(st, stats[j], t);
    }
    forall a | next <= a < end && Joinable(stats[a], st.pool)
      ensures Joinable(stats[a], st1.pool)
    {
      StepKeeps(st, stats[j], stats[a], t);
    }
  }

  /** In a window whose stat records lie inside the list and have pairwise
      different keys, every stat record some entry of the slice joins adds a
      record resolving it with such an entry: none is passed over. */
  lemma {:induction false} WindowFromEach(stats: seq<Dict>, j: nat, end: nat, st: WindowState, t: Tables)
    requires j <= end && WindowFrom(stats, j, end, st, t).Ok? && DistinctPairs(stats, j, end)
    ensures var st' := WindowFrom(stats, j, end, st, t).value;
      forall a :: j <= a < end && Joinable(stats[a], st.pool) ==> AddedFor(st, st', stats[a], st.pool, t)
    decreases end - j
  {
    if j < end && st.pool != [] {
      var next := j + 1;
      var st1 := WindowEachStep(stats, j, next, end, st, t);
      var st' := WindowFrom(stats, j, end, st, t).value;
      StepStatCounts(st, stats[j], t);
      WindowFromCounts(stats, next, end, st1, t);
      WindowFromEach(stats, next, end, st1, t);
      forall a | j <= a < end && Joinable(stats[a], st.pool)
        ensures AddedFor(st, st', stats[a], st.pool, t)
      {
        if a == j {
          var q :| ConsumedAt(st, st1, stats[j], t, q);
          AddedHere(st, st1, st', stats[j], t, q);
        } else {
          AddedWiden(st, st1, st', stats[a], st1.pool, st.pool, t);
        }
      }
    }
  }

  /** A stat record joinable in a smaller slice is joinable in the larger one. */
  lemma JoinableWiden(stat: Dict, small: seq<Dict>, large: seq<Dict>)
    requires Joinable(stat, small) && multiset(small) <= multiset(large)
    ensures Joinable(stat, large)
  {
    var p :| 0 <= p < |small| && KeysMatch(stat, small[p]) == Ok(true);
    assert small[p] in multiset(small);
    assert small[p] in large;
    var p' :| 0 <= p' < |large| && large[p'] == small[p];
  }

  /** How many stat records at positions `lo..hi` some entry of `pool` joins. */
  ghost function JoinableCount(stats: seq<Dict>, lo: nat, hi: nat, pool: seq<Dict>): nat
    requires hi <= |stats|
    decreases hi - lo
  {
    if lo >= hi then 0
    else (if Joinable(stats[lo], pool) then 1 else 0) + JoinableCount(stats, lo + 1, hi, pool)
  }

  /** Consuming the entry the record at `j` joined changes the joinability of
      no later record of a window of pairwise different keys. */
  lemma {:induction false} JoinableCountAfter(stats: seq<Dict>, j: nat, lo: nat, end: nat, pool: seq<Dict>, q: nat)
    requires j < lo <= end && DistinctPairs(stats, j, end)
    requires q < |pool| && KeysMatch(stats[j], pool[q]) == Ok(true)
    ensures JoinableCount(stats, lo, end, RemoveAt(pool, q)) == JoinableCount(stats, lo, end, pool)
    decreases end - lo
  {
    if lo < end {
      JoinableCountAfter(stats, j, lo + 1, end, pool, q);
      var small := RemoveAt(pool, q);
      if Joinable(stats[lo], pool) {
        JoinableAfterRemove(stats[lo], stats[j], pool, q);
      }
      if Joinable(stats[lo], small) {
        RemoveAtShrinks(pool, q);
        JoinableWiden(stats[lo], small, pool);
      }
    }
  }

  /** The first position of a window of pairwise different keys adds one
      record exactly when it is joinable, and the later positions keep their
      joinability. */
  lemma JoinedCountStep(stats: seq<Dict>, j: nat, next: nat, end: nat, st: WindowState, t: Tables)
    returns (st1: WindowState)
    requires j < end && next == j + 1 && WindowFrom(stats, j, end, st, t).Ok? && DistinctPairs(stats, j, end)
    ensures WindowFrom(stats, j, end, st, t) == WindowFrom(stats, next, end, st1, t)
    ensures |st1.team1| + |st1.team2| + JoinableCount(stats, next, end, st1.pool)
         == |st.team1| + |st.team2| + JoinableCount(stats, j, end, st.pool)
  {
    if st.pool == [] {
      WindowFromUnfold(stats, j, end, st, t);
      st1 := st;
      assert !Joinable(stats[j], st.pool);
    } else {
      st1 := WindowEachStep(stats, j, next, end, st, t);
      if Joinable(stats[j], st.pool) {
        var q :| ConsumedAt(st, st1, stats[j], t, q);
        ConsumedCounts(st, st1, stats[j], t, q);
        JoinableCountAfter(stats, j, next, end, st.pool, q);
      }
    }
  }

  /** In a window whose stat records lie inside the list and have pairwise
      different keys, the two team lists gain exactly as many records as the
      window has stat records that some entry of the slice joins. */
  lemma {:induction false} WindowFromJoinedCount(stats: seq<Dict>, j: nat, end: nat, st: WindowState, t: Tables)
    requires j <= end && WindowFrom(stats, j, end, st, t).Ok? && DistinctPairs(stats, j, end)
    ensures var st' := WindowFrom(stats, j, end, st, t).value;
      |st'.team1| + |st'.team2| == |st.team1| + |st.team2| + JoinableCount(stats, j, end, st.pool)
    decreases end - j
  {
    if j < end {
      var next := j + 1;
      var st1 := JoinedCountStep(stats, j, next, end, st, t);
      WindowFromJoinedCount(stats, next, end, st1, t);
    }
  }

  /** A window's two lists are those of the state its loop ends in, starting
      from empty lists and the window's economy slice. */
  lemma ProcessWindowLists(stats: seq<Dict>, economy: seq<Dict>, i: nat, n: nat, end: nat, st: WindowState, t: Tables)
    requires end == i + n && st == WindowState([], [], EconSlice(economy, i, n))
    requires ProcessWindow(stats, economy, i, n, t).Ok?
    ensures WindowFrom(stats, i, end, st, t).Ok?
    ensures ProcessWindow(stats, economy, i, n, t).value ==
      (WindowFrom(stats, i, end, st, t).value.team1, WindowFrom(stats, i, end, st, t).value.team2)
  {
  }

  /** A window inside the stat list whose records have pairwise different keys
      and each find a joining entry in the economy slice fills exactly `n`
      places across its two lists. */
  lemma ProcessWindowFull(stats: seq<Dict>, economy: seq<Dict>, i: nat, n: nat, t: Tables)
    requires ProcessWindow(stats, economy, i, n, t).Ok?
    requires DistinctPairs(stats, i, i + n) && AllJoinable(stats, i, i + n, EconSlice(economy, i, n))
    ensures var w := ProcessWindow(stats, economy, i, n, t).value;
      |w.0| + |w.1| == n
  {
    var end := i + n;
    var st := WindowState([], [], EconSlice(economy, i, n));
    ProcessWindowLists(stats, economy, i, n, end, st, t);
    WindowFromFull(stats, i, end, st, t);
  }

  /** A window run from empty team lists over a slice `pool`: every stat
      record some entry of `pool` joins yields a record in one of the lists,
      and the lists hold exactly as many records as there are such stat
      records. */
  lemma WindowFromEmpty(stats: seq<Dict>, i: nat, end: nat, pool: seq<Dict>, t: Tables)
    requires i <= end && DistinctPairs(stats, i, end)
    requires WindowFrom(stats, i, end, WindowState([], [], pool), t).Ok?
    ensures var st' := WindowFrom(stats, i, end, WindowState([], [], pool), t).value;
      && (forall a :: i <= a < end && Joinable(stats[a], pool) ==>
            || (exists k :: 0 <= k < |st'.team1| && JoinedFrom(st'.team1[k], stats[a], pool, t))
            || (exists k :: 0 <= k < |st'.team2| && JoinedFrom(st'.team2[k], stats[a], pool, t)))
      && |st'.team1| + |st'.team2| == JoinableCount(stats, i, end, pool)
  {
    var st := WindowState([], [], pool);
    var st' := WindowFrom(stats, i, end, st, t).value;
    WindowFromEach(stats, i, end, st, t);
    WindowFromJoinedCount(stats, i, end, st, t);
    forall a | i <= a < end && Joinable(stats[a], pool)
      ensures || (exists k :: 0 <= k < |st'.team1| && JoinedFrom(st'.team1[k], stats[a], pool, t))
              || (exists k :: 0 <= k < |st'.team2| && JoinedFrom(st'.team2[k], stats[a], pool, t))
    {
      assert AddedFor(st, st', stats[a], pool, t);
    }
  }

  /** In a window inside the stat list whose records have pairwise different
      keys, every stat record some entry of the economy slice joins yields a
      record resolving it with such an entry, and the two lists hold exactly
      as many records as there are such stat records. */
  lemma ProcessWindowEach(stats: seq<Dict>, economy: seq<Dict>, i: nat, n: nat, t: Tables)
    requires ProcessWindow(stats, economy, i, n, t).Ok? && DistinctPairs(stats, i, i + n)
    ensures var w := ProcessWindow(stats, economy, i, n, t).value;
      var pool := EconSlice(economy, i, n);
      && (forall a :: i <= a < i + n && Joinable(stats[a], pool) ==>
            || (exists k :: 0 <= k < |w.0| && JoinedFrom(w.0[k], stats[a], pool, t))
            || (exists k :: 0 <= k < |w.1| && JoinedFrom(w.1[k], stats[a], pool, t)))
      && |w.0| + |w.1| == JoinableCount(stats, i, i + n, pool)
  {
    var end := i + n;
    var pool := EconSlice(economy, i, n);
    ProcessWindowLists(stats, economy, i, n, end, WindowState([], [], pool), t);
    WindowFromEmpty(stats, i, end, pool, t);
  }

  /** `economy[i:i+n]`, clamped to the list as Python slicing is. */
  function EconSlice(economy: seq<Dict>, i: nat, n: nat): (s: seq<Dict>)
    ensures |s| <= n
  {
    var lo := if i < |economy| then i else |economy|;
    var hi := if i + n < |economy| then i + n else |economy|;
    economy[lo..hi]
  }

  /** The window that starts at stat position `i`: stat records `i..i+n`
      against the economy entries `i..i+n`. */
  function ProcessWindow(stats: seq<Dict>, economy: seq<Dict>, i: nat, n: nat, t: Tables)
    : Result<(seq<Dict>, seq<Dict>)>
  {
    var st :- WindowFrom(stats, i, i + n, WindowState([], [], EconSlice(economy, i, n)), t);
    Ok((st.team1, st.team2))
  }

  /** The windows starting at `i`, `i+n`, ... up to the end of the stat list. */
  function AlignFrom(stats: seq<Dict>, economy: seq<Dict>, n: nat, i: nat, t: Tables)
    : Result<(seq<seq<Dict>>, seq<seq<Dict>>)>
    requires n >= 1
    decreases |stats| - i
  {
    if i >= |stats| then Ok(([], []))
    else
      var w :- ProcessWindow(stats, economy, i, n, t);
      var rest :- AlignFrom(stats, economy, n, i + n, t);
      Ok(([w.0] + rest.0, [w.1] + rest.1))
  }

  /** One window in numbers: together its two lists hold at most `n`
      records, one per economy entry consumed. */
  lemma ProcessWindowSize(stats: seq<Dict>, economy: seq<Dict>, i: nat, n: nat, t: Tables)
    requires ProcessWindow(stats, economy, i, n, t).Ok?
    ensures var w := ProcessWindow(stats, economy, i, n, t).value;
      |w.0| + |w.1| <= |EconSlice(economy, i, n)| <= n
  {
    WindowFromCounts(stats, i, i + n, WindowState([], [], EconSlice(economy, i, n)), t);
  }

  /** One window: every record of its two lists comes from a stat record of
      the window joined with an economy entry of its slice, and is routed by
      `teamNumber`. */
  lemma ProcessWindowRouted(stats: seq<Dict>, economy: seq<Dict>, i: nat, n: nat, t: Tables)
    requires ProcessWindow(stats, economy, i, n, t).Ok?
    ensures var w := ProcessWindow(stats, economy, i, n, t).value;
      && (forall k :: 0 <= k < |w.0| ==>
            OnTeam1(w.0[k]) && Produced(w.0[k], stats, i, i + n, EconSlice(economy, i, n), t))
      && (forall k :: 0 <= k < |w.1| ==>
            OnTeam2(w.1[k]) && Produced(w.1[k], stats, i, i + n, EconSlice(economy, i, n), t))
  {
    WindowFromRouted(stats, i, i + n, WindowState([], [], EconSlice(economy, i, n)), t);
  }

  /** The records of one window's team-1 list are on team 1, those of its
      team-2 list on team 2. */
  lemma ProcessWindowOnTeams(stats: seq<Dict>, economy: seq<Dict>, i: nat, n: nat, t: Tables)
    requires ProcessWindow(stats, economy, i, n, t).Ok?
    ensures var w := ProcessWindow(stats, economy, i, n, t).value;
      && (forall k :: 0 <= k < |w.0| ==> OnTeam1(w.0[k]))
      && (forall k :: 0 <= k < |w.1| ==> OnTeam2(w.1[k]))
  {
    ProcessWindowRouted(stats, economy, i, n, t);
  }

  /** A completed run is the first window followed by the later ones. */
  lemma AlignFromCons(stats: seq<Dict>, economy: seq<Dict>, n: nat, i: nat, next: nat, t: Tables)
    requires n >= 1 && i < |stats| && next == i + n && AlignFrom(stats, economy, n, i, t).Ok?
    ensures ProcessWindow(stats, economy, i, n, t).Ok? && AlignFrom(stats, economy, n, next, t).Ok?
    ensures var r := AlignFrom(stats, economy, n, i, t).value;
      var w := ProcessWindow(stats, economy, i, n, t).value;
      var rest := AlignFrom(stats, economy, n, next, t).value;
      && r.0 == [w.0] + rest.0 && r.1 == [w.1] + rest.1
  {
    if ProcessWindow(stats, economy, i, n, t).Ok? {
      AlignFromUnfold(stats, economy, n, i, next, t);
    }
  }

  /** If `c` windows of `n` exactly cover `a - n` records (none when there are
      none), `c + 1` windows exactly cover `a`. */
  lemma CoverStep(a: int, n: int, c: int)
    requires n >= 1 && a > 0
    requires a <= n ==> c == 0
    requires a > n ==> (c - 1) * n < a - n <= c * n
    ensures c * n < a <= (c + 1) * n
  {
    assert (c + 1) * n == c * n + n;
    assert (c - 1) * n == c * n - n;
  }

  /** The two per-round lists have one entry per window, `ceil((len - i) / n)`
      of them: the least count whose windows cover the remaining stat records. */
  lemma {:induction false} AlignFromCount(stats: seq<Dict>, economy: seq<Dict>, n: nat, i: nat, t: Tables)
    requires n >= 1 && AlignFrom(stats, economy, n, i, t).Ok?
    ensures var r := AlignFrom(stats, economy, n, i, t).value;
      && |r.0| == |r.1|
      && (i >= |stats| ==> |r.0| == 0)
      && (i < |stats| ==> (|r.0| - 1) * n < |stats| - i <= |r.0| * n)
    decreases |stats| - i
  {
    if i < |stats| {
      var next := i + n;
      AlignFromCons(stats, economy, n, i, next, t);
      AlignFromCount(stats, economy, n, next, t);
      CoverStep(|stats| - i, n, |AlignFrom(stats, economy, n, next, t).value.0|);
    }
  }

  /** Window `w` of both lists together holds at most `n` records. */
  predicate Bounded(r0: seq<seq<Dict>>, r1: seq<seq<Dict>>, n: nat) {
    forall w :: 0 <= w < |r0| && w < |r1| ==> |r0[w]| + |r1[w]| <= n
  }

  /** Every record of every window of `r0` is on team 1, of `r1` on team 2. */
  predicate Routed(r0: seq<seq<Dict>>, r1: seq<seq<Dict>>) {
    && (forall w, k :: 0 <= w < |r0| && 0 <= k < |r0[w]| ==> OnTeam1(r0[w][k]))
    && (forall w, k :: 0 <= w < |r1| && 0 <= k < |r1[w]| ==> OnTeam2(r1[w][k]))
  }

  lemma BoundedCons(a0: seq<Dict>, a1: seq<Dict>, r0: seq<seq<Dict>>, r1: seq<seq<Dict>>, n: nat)
    requires |a0| + |a1| <= n && Bounded(r0, r1, n)
    ensures Bounded([a0] + r0, [a1] + r1, n)
  {
    var x0, x1 := [a0] + r0, [a1] + r1;
    forall w | 1 <= w < |x0| && w < |x1| ensures |x0[w]| + |x1[w]| <= n {
      assert x0[w] == r0[w - 1] && x1[w] == r1[w - 1];
    }
  }

  lemma RoutedCons(a0: seq<Dict>, a1: seq<Dict>, r0: seq<seq<Dict>>, r1: seq<seq<Dict>>)
    requires forall k :: 0 <= k < |a0| ==> OnTeam1(a0[k])
    requires forall k :: 0 <= k < |a1| ==> OnTeam2(a1[k])
    requires Routed(r0, r1)
    ensures Routed([a0] + r0, [a1] + r1)
  {
    var x0, x1 := [a0] + r0, [a1] + r1;
    forall w | 1 <= w < |x0| ensures x0[w] == r0[w - 1] { }
    forall w | 1 <= w < |x1| ensures x1[w] == r1[w - 1] { }
  }

  /** Every window holds at most `n` records. */
  lemma {:induction false} AlignFromSizes(stats: seq<Dict>, economy: seq<Dict>, n: nat, i: nat, t: Tables)
    requires n >= 1 && AlignFrom(stats, economy, n, i, t).Ok?
    ensures Bounded(AlignFrom(stats, economy, n, i, t).value.0, AlignFrom(stats, economy, n, i, t).value.1, n)
    decreases |stats| - i
  {
    if i < |stats| {
      var next := i + n;
      AlignFromCons(stats, economy, n, i, next, t);
      ProcessWindowSize(stats, economy, i, n, t);
      AlignFromSizes(stats, economy, n, next, t);
      var w := ProcessWindow(stats, economy, i, n, t).value;
      var rest := AlignFrom(stats, economy, n, next, t).value;
      BoundedCons(w.0, w.1, rest.0, rest.1, n);
    }
  }

  /** Every record is routed to the list its `teamNumber` names. */
  lemma {:induction false} AlignFromRouted(stats: seq<Dict>, economy: seq<Dict>, n: nat, i: nat, t: Tables)
    requires n >= 1 && AlignFrom(stats, economy, n, i, t).Ok?
    ensures Routed(AlignFrom(stats, economy, n, i, t).value.0, AlignFrom(stats, economy, n, i, t).value.1)
    decreases |stats| - i
  {
    if i < |stats| {
      var next := i + n;
      AlignFromCons(stats, economy, n, i, next, t);
      ProcessWindowOnTeams(stats, economy, i, n, t);
      AlignFromRouted(stats, economy, n, next, t);
      var w := ProcessWindow(stats, economy, i, n, t).value;
      var rest := AlignFrom(stats, economy, n, next, t).value;
      RoutedCons(w.0, w.1, rest.0, rest.1);
    }
  }

  /** A window that succeeds puts its two lists in front of the later windows. */
  lemma AlignFromUnfold(stats: seq<Dict>, economy: seq<Dict>, n: nat, i: nat, next: nat, t: Tables)
    requires n >= 1 && i < |stats| && next == i + n && ProcessWindow(stats, economy, i, n, t).Ok?
    ensures var w := ProcessWindow(stats, economy, i, n, t).value;
      AlignFrom(stats, economy, n, i, t) == Prepend([w.0], [w.1], AlignFrom(stats, economy, n, next, t))
  {
  }

  /** Puts finished windows in front of the windows still to come. */
  function Prepend(done1: seq<seq<Dict>>, done2: seq<seq<Dict>>, r: Result<(seq<seq<Dict>>, seq<seq<Dict>>)>)
    : Result<(seq<seq<Dict>>, seq<seq<Dict>>)>
  {
    match r
    case Ok(p) => Ok((done1 + p.0, done2 + p.1))
    case Err(e) => Err(e)
  }

  lemma PrependEmpty(r: Result<(seq<seq<Dict>>, seq<seq<Dict>>)>)
    ensures Prepend([], [], r) == r
  {
    if r.Ok? {
      assert [] + r.value.0 == r.value.0 && [] + r.value.1 == r.value.1;
    }
  }

  /** Past the last stat record no window is left. */
  lemma AlignFromDone(stats: seq<Dict>, economy: seq<Dict>, n: nat, i: nat, t: Tables,
                      done1: seq<seq<Dict>>, done2: seq<seq<Dict>>)
    requires n >= 1 && i >= |stats|
    ensures Prepend(done1, done2, AlignFrom(stats, economy, n, i, t)) == Ok((done1, done2))
  {
    assert done1 + [] == done1 && done2 + [] == done2;
  }

  lemma PrependAssoc(a1: seq<seq<Dict>>, a2: seq<seq<Dict>>, b1: seq<seq<Dict>>, b2: seq<seq<Dict>>,
                     r: Result<(seq<seq<Dict>>, seq<seq<Dict>>)>)
    ensures Prepend(a1, a2, Prepend(b1, b2, r)) == Prepend(a1 + b1, a2 + b2, r)
  {
    if r.Ok? {
      assert a1 + (b1 + r.value.0) == (a1 + b1) + r.value.0;
      assert a2 + (b2 + r.value.1) == (a2 + b2) + r.value.1;
    }
  }

  /** The body of the `for player in econWindow` loop for one stat record:
      pop the partner, merge and resolve, append to the team's round list. */
  method JoinStat(stat: Dict, econWindow: seq<Dict>, team1Round: seq<Dict>, team2Round: seq<Dict>, t: Tables)
    returns (r: Result<WindowState>)
    ensures r == StepStat(WindowState(team1Round, team2Round, econWindow), stat, t)
  {
    var p := FindPartner(stat, econWindow);
    if p.Err? {
      return Err(p.error);
    }
    if p.value.None? {
      return Ok(WindowState(team1Round, team2Round, econWindow));
    }
    var q := p.value.value;
    var playerEcon := econWindow[q];
    var rest := econWindow[..q] + econWindow[q + 1..];
    var rec := ResolvePair(stat, playerEcon, t);
    if rec.Err? {
      return Err(rec.error);
    }
    var team := Need(rec.value, "teamNumber");
    if team.Err? {
      return Err(team.error);
    }
    if team.value == Int(1) {
      r := Ok(WindowState(team1Round + [rec.value], team2Round, rest));
    } else {
      r := Ok(WindowState(team1Round, team2Round + [rec.value], rest));
    }
  }

  /** The `for j in range(i, i+numPlayers)` loop of one window. */
  method AlignWindow(stats: seq<Dict>, economy: seq<Dict>, i: nat, n: nat, t: Tables)
    returns (r: Result<(seq<Dict>, seq<Dict>)>)
    ensures r == ProcessWindow(stats, economy, i, n, t)
  {
    var econWindow := EconSlice(economy, i, n);
    var team1Round: seq<Dict> := [];
    var team2Round: seq<Dict> := [];
    ghost var start := WindowState([], [], econWindow);
    var j := i;
    while j < i + n
      invariant i <= j <= i + n
      invariant WindowFrom(stats, i, i + n, start, t) ==
                WindowFrom(stats, j, i + n, WindowState(team1Round, team2Round, econWindow), t)
    {
      if econWindow != [] {
        if j >= |stats| {
          return Err(StatsIndexError(j));
        }
        var s := JoinStat(stats[j], econWindow, team1Round, team2Round, t);
        if s.Err? {
          return Err(s.error);
        }
        team1Round, team2Round, econWindow := s.value.team1, s.value.team2, s.value.pool;
      }
      j := j + 1;
    }
    return Ok((team1Round, team2Round));
  }

  /** The windows finished before `i`, followed by those still to come, are
      all the windows of the stat list. */
  predicate Tracks(stats: seq<Dict>, economy: seq<Dict>, n: nat, t: Tables, i: nat,
                   done1: seq<seq<Dict>>, done2: seq<seq<Dict>>)
    requires n >= 1
  {
    AlignFrom(stats, economy, n, 0, t) == Prepend(done1, done2, AlignFrom(stats, economy, n, i, t))
  }

  /** A finished window keeps the tally; a failing one is the outcome. */
  lemma TracksStep(stats: seq<Dict>, economy: seq<Dict>, n: nat, t: Tables, i: nat, next: nat,
                   done1: seq<seq<Dict>>, done2: seq<seq<Dict>>, w: Result<(seq<Dict>, seq<Dict>)>)
    requires n >= 1 && i < |stats| && w == ProcessWindow(stats, economy, i, n, t)
    requires Tracks(stats, economy, n, t, i, done1, done2) && next == i + n
    ensures w.Err? ==> AlignFrom(stats, economy, n, 0, t) == Err(w.error)
    ensures w.Ok? ==> Tracks(stats, economy, n, t, next, done1 + [w.value.0], done2 + [w.value.1])
  {
    if w.Ok? {
      var rest := AlignFrom(stats, economy, n, next, t);
      AlignFromUnfold(stats, economy, n, i, next, t);
      PrependAssoc(done1, done2, [w.value.0], [w.value.1], rest);
    }
  }

  /** `player_stats_data`'s main loop: one window of `n` stat records at a
      time, each joined with the economy entries of the same window. */
  method AlignWindows(stats: seq<Dict>, economy: seq<Dict>, n: nat, t: Tables)
    returns (r: Result<(seq<seq<Dict>>, seq<seq<Dict>>)>)
    requires n >= 1
    ensures r == AlignFrom(stats, economy, n, 0, t)
  {
    var team1Players: seq<seq<Dict>> := [];
    var team2Players: seq<seq<Dict>> := [];
    var i: nat := 0;
    PrependEmpty(AlignFrom(stats, economy, n, 0, t));
    while i < |stats|
      invariant Tracks(stats, economy, n, t, i, team1Players, team2Players)
      decreases |stats| - i
    {
      var w := AlignWindow(stats, economy, i, n, t);
      var next: nat := i + n;
      TracksStep(stats, economy, n, t, i, next, team1Players, team2Players, w);
      if w.Err? {
        return Err(w.error);
      }
      team1Players := team1Players + [w.value.0];
      team2Players := team2Players + [w.value.1];
      i := next;
    }
    AlignFromDone(stats, economy, n, i, t, team1Players, team2Players);
    return Ok((team1Players, team2Players));
  }
}
