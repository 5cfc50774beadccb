/**
 * The team use case: reads through the team repository, falling back to the
 * sports API for statistics and for teams the store does not hold, and caching
 * what the API returns. The repository members whose implementation is not part
 * of this model (GetTeamStats, SaveTeamStats, CacheTeamID) are TeamRepoExtras.
 */
module TeamUsecases {
  import opened Domain
  import opened Numeric
  import opened KeyValue
  import opened Keys
  import opened TeamRepository
  import opened Upstream
  import opened Json

  /** getLeagueName. */
  function LeagueName(leagueID: int): string {
    if leagueID == 363 then "Ethiopian Premier League"
    else if leagueID == 39 then "English Premier League"
    else "Unknown League"
  }

  /** The league codes the fixtures adapter accepts name the leagues the use case knows. */
  lemma LeagueCodesNamed()
    ensures LeagueName(ResolveLeague("ETH").value) == "Ethiopian Premier League"
    ensures LeagueName(ResolveLeague("EPL").value) == "English Premier League"
    ensures forall id :: id != 363 && id != 39 ==> LeagueName(id) == "Unknown League"
  {
  }

  /** getFoundedYear: a missing year prints as 0. */
  function FoundedYear(founded: Option<int>): int {
    if founded.Some? then founded.value else 0
  }

  /** The bio line a converted team carries. */
  function Bio(founded: Option<int>, country: string): string {
    "Founded: " + Itoa(FoundedYear(founded)) + ", Country: " + country
  }

  /** One API team as a domain team of the given league. */
  function ToTeam(r: TeamResp, leagueID: int): Team {
    Team(Itoa(r.id), r.name, "", LeagueName(leagueID), r.logo, Bio(r.founded, r.country))
  }

  /** The ID a converted team carries parses back to the API's ID, so SaveAllTeams hashes it. */
  lemma ToTeamIDRoundTrip(r: TeamResp, leagueID: int)
    requires InRange(r.id)
    ensures Atoi(ToTeam(r, leagueID).id) == Some(r.id)
    ensures ToTeam(r, leagueID).id == Itoa(r.id)
  {
    AtoiItoa(r.id);
  }

  /**
   * What a team converted from an API entry holds: the printed ID, the name and logo
   * copied, no short name, the league's name, and a bio with the founding year and country.
   */
  predicate ConvertedFrom(t: Team, r: TeamResp, leagueID: int) {
    t.id == Itoa(r.id) && t.name == r.name && t.short == "" &&
    t.league == LeagueName(leagueID) && t.crestUrl == r.logo &&
    t.bio == Bio(r.founded, r.country)
  }

  /** The bio of a converted team names its founding year, or 0 when the API gives none. */
  lemma FoundedYearInBio(r: TeamResp, leagueID: int)
    ensures r.founded.None? ==> ToTeam(r, leagueID).bio == "Founded: 0, Country: " + r.country
    ensures r.founded.Some? ==> ToTeam(r, leagueID).bio == "Founded: " + Itoa(r.founded.value) + ", Country: " + r.country
  {
    assert Itoa(0) == "0";
  }

  /** The converted catalog, one team per API entry, in order. */
  function CatalogOf(resps: seq<TeamResp>, leagueID: int): (ts: seq<Team>)
    ensures |ts| == |resps|
    ensures forall i {:trigger ts[i]} :: 0 <= i < |resps| ==> ConvertedFrom(ts[i], resps[i], leagueID)
  {
    seq(|resps|, i requires 0 <= i < |resps| => ToTeam(resps[i], leagueID))
  }

  /** The conversion loop of GetTeamByID. */
  method Catalog(resps: seq<TeamResp>, leagueID: int) returns (ts: seq<Team>)
    ensures ts == CatalogOf(resps, leagueID)
  {
    ts := [];
    for i := 0 to |resps|
      invariant |ts| == i
      invariant forall j :: 0 <= j < i ==> ts[j] == ToTeam(resps[j], leagueID)
    {
      ts := ts + [ToTeam(resps[i], leagueID)];
    }
  }

  /** The first team with the given ID, if any. */
  function FindByID(ts: seq<Team>, id: string): Option<Team>
    decreases |ts|
  {
    if ts == [] then None
    else if ts[0].id == id then Some(ts[0])
    else FindByID(ts[1..], id)
  }

  /** FindByID finds nothing exactly when no team has the ID, and otherwise the first team that has it. */
  lemma {:induction false} FindByIDIsFirst(ts: seq<Team>, id: string)
    ensures FindByID(ts, id).None? <==> forall i :: 0 <= i < |ts| ==> ts[i].id != id
    ensures FindByID(ts, id).Some? ==> exists i :: 0 <= i < |ts| && ts[i] == FindByID(ts, id).value && ts[i].id == id &&
                                                forall j :: 0 <= j < i ==> ts[j].id != id
    decreases |ts|
  {
    if ts != [] && ts[0].id != id {
      var tail := ts[1..];
      FindByIDIsFirst(tail, id);
      assert forall i :: 0 <= i < |tail| ==> tail[i] == ts[i + 1];
      if FindByID(tail, id).Some? {
        var k :| 0 <= k < |tail| && tail[k] == FindByID(tail, id).value && tail[k].id == id &&
                 forall j :: 0 <= j < k ==> tail[j].id != id;
        assert ts[k + 1] == tail[k];
      }
    } else if ts != [] {
      assert ts[0] == FindByID(ts, id).value;
    }
  }

  /** The scan of GetTeamByID over a freshly converted catalog. */
  method FindTeam(ts: seq<Team>, id: string) returns (r: Option<Team>)
    ensures r == FindByID(ts, id)
  {
    for i := 0 to |ts|
      invariant FindByID(ts, id) == FindByID(ts[i..], id)
    {
      assert ts[i..][1..] == ts[i + 1..];
      if ts[i].id == id {
        return Some(ts[i]);
      }
    }
    r := None;
  }

  /**
   * The repository members whose implementation is not part of this model: the
   * statistics cache answers from a fixed table (a save is not reflected in later
   * reads), and every call is recorded.
   */
  class TeamRepoExtras {
    const statsAnswers: map<int, Result<Option<Stats>>>
    var statsReads: seq<int>
    var statsSaves: seq<(int, Stats)>
    var idCache: seq<(string, string)>

    constructor (statsAnswers: map<int, Result<Option<Stats>>>)
      ensures this.statsAnswers == statsAnswers && statsReads == [] && statsSaves == [] && idCache == []
    {
      this.statsAnswers := statsAnswers;
      statsReads := [];
      statsSaves := [];
      idCache := [];
    }

    /** The stats GetTeamStats returns with a nil error, if any. */
    function CachedStats(id: int): Option<Stats> {
      if id in statsAnswers && statsAnswers[id].Ok? then statsAnswers[id].value else None
    }

    method GetTeamStats(id: int) returns (r: Option<Stats>)
      modifies this
      ensures r == CachedStats(id)
      ensures statsReads == old(statsReads) + [id]
      ensures statsSaves == old(statsSaves) && idCache == old(idCache)
    {
      statsReads := statsReads + [id];
      r := CachedStats(id);
    }

    method SaveTeamStats(id: int, s: Stats)
      modifies this
      ensures statsSaves == old(statsSaves) + [(id, s)]
      ensures statsReads == old(statsReads) && idCache == old(idCache)
    {
      statsSaves := statsSaves + [(id, s)];
    }

    method CacheTeamID(name: string, id: string)
      modifies this
      ensures idCache == old(idCache) + [(name, id)]
      ensures statsReads == old(statsReads) && statsSaves == old(statsSaves)
    {
      idCache := idCache + [(name, id)];
    }
  }

  /** StatisticsByID: the cached stats when present, otherwise the API's answer. */
  function StatisticsByIDOf(extras: TeamRepoExtras, api: SportsApi, league: int, season: int, team: int): (r: Result<Stats>)
    ensures extras.CachedStats(team).Some? ==> r == Ok(extras.CachedStats(team).value)
    ensures extras.CachedStats(team).None? ==> r == api.StatsAnswer(league, season, team)
  {
    if extras.CachedStats(team).Some? then Ok(extras.CachedStats(team).value)
    else api.StatsAnswer(league, season, team)
  }

  /** Statistics: the team name resolved through GetID (any failure is InternalServer), then StatisticsByID. */
  function StatisticsOf(m: Entries, online: bool, extras: TeamRepoExtras, api: SportsApi,
                        league: int, season: int, team: string): (r: Result<Stats>)
    ensures GetIDOf(m, online, team).Err? ==> r == Err(InternalServer)
    ensures GetIDOf(m, online, team).Ok? ==> r == StatisticsByIDOf(extras, api, league, season, GetIDOf(m, online, team).value)
  {
    match GetIDOf(m, online, team)
    case Err(_) => Err(InternalServer)
    case Ok(id) => StatisticsByIDOf(extras, api, league, season, id)
  }

  /** The API is asked for statistics exactly when the stats cache has none. */
  function StatsApiCalls(extras: TeamRepoExtras, league: int, season: int, team: int): seq<ApiCall> {
    if extras.CachedStats(team).Some? then [] else [StatsCall(league, season, team)]
  }

  /** Stats fetched from the API are saved back; cached stats and failures are not. */
  function StatsSaves(extras: TeamRepoExtras, api: SportsApi, league: int, season: int, team: int): seq<(int, Stats)> {
    if extras.CachedStats(team).None? && api.StatsAnswer(league, season, team).Ok?
    then [(team, api.StatsAnswer(league, season, team).value)] else []
  }

  /** Statistics by cached name equals StatisticsByID on the ID the name was cached with. */
  lemma StatisticsByCachedName(m: Entries, extras: TeamRepoExtras, api: SportsApi,
                               league: int, season: int, name: string, n: int, ttl: nat)
    requires InRange(n)
    ensures StatisticsOf(m[name := Blob(Text(Itoa(n)), ttl)], true, extras, api, league, season, name)
         == StatisticsByIDOf(extras, api, league, season, n)
  {
    GetIDOfCachedNumber(m, name, n, ttl);
  }

  /** Every Statistics error is InternalServer or an error the API answered. */
  lemma StatisticsErrors(m: Entries, online: bool, extras: TeamRepoExtras, api: SportsApi,
                         league: int, season: int, team: string)
    ensures var r := StatisticsOf(m, online, extras, api, league, season, team);
      r.Err? ==> r.error == InternalServer ||
                 (GetIDOf(m, online, team).Ok? && r == api.StatsAnswer(league, season, GetIDOf(m, online, team).value))
  {
  }

  /** The league and season pairs GetTeamByID tries, leagues outermost: ETH then EPL, 2021 to 2023. */
  const Leagues: seq<int> := [363, 39]
  const Seasons: seq<int> := [2021, 2022, 2023]
  const Pairs: seq<(int, int)> := [(363, 2021), (363, 2022), (363, 2023), (39, 2021), (39, 2022), (39, 2023)]

  lemma PairAt(li: nat, si: nat)
    requires li < |Leagues| && si < |Seasons|
    ensures |Seasons| * li + si < |Pairs| && Pairs[|Seasons| * li + si] == (Leagues[li], Seasons[si])
  {
  }

  /** The team one pair yields: the first in its converted catalog with the asked ID. */
  function Lookup(api: SportsApi, p: (int, int), teamID: int): Option<Team> {
    match api.TeamsAnswer(p.0, p.1)
    case Err(_) => None
    case Ok(resps) => FindByID(CatalogOf(resps, p.0), Itoa(teamID))
  }

  /** The team the search over the pairs finds: the one of the first pair that yields one. */
  function SearchFound(api: SportsApi, ps: seq<(int, int)>, teamID: int): Option<Team>
    decreases |ps|
  {
    if ps == [] then None
    else if Lookup(api, ps[0], teamID).Some? then Lookup(api, ps[0], teamID)
    else SearchFound(api, ps[1..], teamID)
  }

  /** The search finds nothing exactly when no pair yields a team, and otherwise the team of the first pair that does. */
  lemma {:induction false} SearchFoundIsFirstHit(api: SportsApi, ps: seq<(int, int)>, teamID: int)
    ensures SearchFound(api, ps, teamID).None? <==> forall i :: 0 <= i < |ps| ==> Lookup(api, ps[i], teamID).None?
    ensures SearchFound(api, ps, teamID).Some? ==>
      exists i :: 0 <= i < |ps| && Lookup(api, ps[i], teamID) == SearchFound(api, ps, teamID) &&
                  forall j :: 0 <= j < i ==> Lookup(api, ps[j], teamID).None?
    decreases |ps|
  {
    if ps != [] {
      if Lookup(api, ps[0], teamID).Some? {
        assert Lookup(api, ps[0], teamID) == SearchFound(api, ps, teamID);
      } else {
        SearchFoundIsFirstHit(api, ps[1..], teamID);
        if SearchFound(api, ps[1..], teamID).None? {
          SearchMissShift(api, ps, teamID);
        } else {
          var tail := ps[1..];
          var k :| 0 <= k < |tail| && Lookup(api, tail[k], teamID) == SearchFound(api, tail, teamID) &&
                   forall j :: 0 <= j < k ==> Lookup(api, tail[j], teamID).None?;
          SearchHitShift(api, ps, teamID, k);
        }
      }
    }
  }

  /** No pair of ps yields a team when ps[0] does not and no pair of ps[1..] does. */
  lemma SearchMissShift(api: SportsApi, ps: seq<(int, int)>, teamID: int)
    requires |ps| > 0 && Lookup(api, ps[0], teamID).None?
    requires forall i :: 0 <= i < |ps[1..]| ==> Lookup(api, ps[1..][i], teamID).None?
    ensures forall i :: 0 <= i < |ps| ==> Lookup(api, ps[i], teamID).None?
  {
    forall i | 0 < i < |ps|
      ensures Lookup(api, ps[i], teamID).None?
    {
      assert ps[i] == ps[1..][i - 1];
    }
  }

  /** The first hit in ps[1..], at k, is when ps[0] misses the first hit in ps, at k + 1. */
  lemma SearchHitShift(api: SportsApi, ps: seq<(int, int)>, teamID: int, k: nat)
    requires |ps| > 0 && Lookup(api, ps[0], teamID).None?
    requires k < |ps[1..]| && Lookup(api, ps[1..][k], teamID) == SearchFound(api, ps[1..], teamID)
    requires forall j :: 0 <= j < k ==> Lookup(api, ps[1..][j], teamID).None?
    ensures k + 1 < |ps| && Lookup(api, ps[k + 1], teamID) == SearchFound(api, ps, teamID)
    ensures forall j :: 0 <= j < k + 1 ==> Lookup(api, ps[j], teamID).None?
  {
    var tail := ps[1..];
    assert SearchFound(api, ps, teamID) == SearchFound(api, tail, teamID);
    assert ps[k + 1] == tail[k];
    forall j | 0 < j < k + 1
      ensures Lookup(api, ps[j], teamID).None?
    {
      assert ps[j] == tail[j - 1];
    }
  }

  /** The store after one pair: its catalog saved when the API answered. */
  function SearchStep(m: Entries, online: bool, api: SportsApi, p: (int, int)): Entries {
    match api.TeamsAnswer(p.0, p.1)
    case Err(_) => m
    case Ok(resps) => SaveAllState(m, online, p.0, p.1, CatalogOf(resps, p.0))
  }

  function StepWrites(online: bool, api: SportsApi, p: (int, int)): seq<Write> {
    match api.TeamsAnswer(p.0, p.1)
    case Err(_) => []
    case Ok(resps) => SaveAllLog(online, p.0, p.1, CatalogOf(resps, p.0))
  }

  /** The store after the search: every pair up to and including the first hit has been saved. */
  function SearchState(m: Entries, online: bool, api: SportsApi, ps: seq<(int, int)>, teamID: int): Entries
    decreases |ps|
  {
    if ps == [] then m
    else if Lookup(api, ps[0], teamID).Some? then SearchStep(m, online, api, ps[0])
    else SearchState(SearchStep(m, online, api, ps[0]), online, api, ps[1..], teamID)
  }

  /** The API calls of the search: one per pair up to and including the first hit. */
  function SearchCalls(api: SportsApi, ps: seq<(int, int)>, teamID: int): seq<ApiCall>
    decreases |ps|
  {
    if ps == [] then []
    else [TeamsCall(ps[0].0, ps[0].1)] + (if Lookup(api, ps[0], teamID).Some? then [] else SearchCalls(api, ps[1..], teamID))
  }

  function SearchWrites(online: bool, api: SportsApi, ps: seq<(int, int)>, teamID: int): seq<Write>
    decreases |ps|
  {
    if ps == [] then []
    else StepWrites(online, api, ps[0]) + (if Lookup(api, ps[0], teamID).Some? then [] else SearchWrites(online, api, ps[1..], teamID))
  }

  /** The search asks the API about the pairs in order, about each at most once, and about all of them when nothing is found. */
  lemma {:induction false} SearchCallsFollowPairs(api: SportsApi, ps: seq<(int, int)>, teamID: int)
    ensures |SearchCalls(api, ps, teamID)| <= |ps|
    ensures forall i :: 0 <= i < |SearchCalls(api, ps, teamID)| ==> SearchCalls(api, ps, teamID)[i] == TeamsCall(ps[i].0, ps[i].1)
    ensures SearchFound(api, ps, teamID).None? ==> |SearchCalls(api, ps, teamID)| == |ps|
    decreases |ps|
  {
    if ps != [] && Lookup(api, ps[0], teamID).None? {
      SearchCallsFollowPairs(api, ps[1..], teamID);
      SearchCallsCons(api, ps, teamID);
    }
  }

  /** The inductive step of SearchCallsFollowPairs: a miss on ps[0] puts its call in front of the calls for ps[1..]. */
  lemma SearchCallsCons(api: SportsApi, ps: seq<(int, int)>, teamID: int)
    requires ps != [] && Lookup(api, ps[0], teamID).None?
    requires |SearchCalls(api, ps[1..], teamID)| <= |ps[1..]|
    requires forall i :: 0 <= i < |SearchCalls(api, ps[1..], teamID)| ==>
      SearchCalls(api, ps[1..], teamID)[i] == TeamsCall(ps[1..][i].0, ps[1..][i].1)
    requires SearchFound(api, ps[1..], teamID).None? ==> |SearchCalls(api, ps[1..], teamID)| == |ps[1..]|
    ensures |SearchCalls(api, ps, teamID)| <= |ps|
    ensures forall i :: 0 <= i < |SearchCalls(api, ps, teamID)| ==> SearchCalls(api, ps, teamID)[i] == TeamsCall(ps[i].0, ps[i].1)
    ensures SearchFound(api, ps, teamID).None? ==> |SearchCalls(api, ps, teamID)| == |ps|
  {
    var tail := ps[1..];
    var rest := SearchCalls(api, tail, teamID);
    var calls := SearchCalls(api, ps, teamID);
    assert calls == [TeamsCall(ps[0].0, ps[0].1)] + rest;
    forall i | 0 <= i < |calls|
      ensures calls[i] == TeamsCall(ps[i].0, ps[i].1)
    {
      if i > 0 {
        assert calls[i] == rest[i - 1] && tail[i - 1] == ps[i];
      }
    }
    assert SearchFound(api, ps, teamID) == SearchFound(api, tail, teamID);
  }

  /** A search that finds a team stops right after the pair that yielded it. */
  lemma {:induction false} SearchStopsAtHit(api: SportsApi, ps: seq<(int, int)>, teamID: int)
    requires SearchFound(api, ps, teamID).Some?
    ensures 1 <= |SearchCalls(api, ps, teamID)| <= |ps|
    ensures Lookup(api, ps[|SearchCalls(api, ps, teamID)| - 1], teamID) == SearchFound(api, ps, teamID)
    decreases |ps|
  {
    if Lookup(api, ps[0], teamID).Some? {
      assert SearchCalls(api, ps, teamID) == [TeamsCall(ps[0].0, ps[0].1)];
    } else {
      assert SearchFound(api, ps, teamID) == SearchFound(api, ps[1..], teamID);
      SearchStopsAtHit(api, ps[1..], teamID);
      SearchStopsCons(api, ps, teamID);
    }
  }

  /** The inductive step of SearchStopsAtHit. */
  lemma SearchStopsCons(api: SportsApi, ps: seq<(int, int)>, teamID: int)
    requires ps != [] && Lookup(api, ps[0], teamID).None? && SearchFound(api, ps[1..], teamID).Some?
    requires 1 <= |SearchCalls(api, ps[1..], teamID)| <= |ps[1..]|
    requires Lookup(api, ps[1..][|SearchCalls(api, ps[1..], teamID)| - 1], teamID) == SearchFound(api, ps[1..], teamID)
    ensures 1 <= |SearchCalls(api, ps, teamID)| <= |ps|
    ensures Lookup(api, ps[|SearchCalls(api, ps, teamID)| - 1], teamID) == SearchFound(api, ps, teamID)
  {
    var rest := SearchCalls(api, ps[1..], teamID);
    assert SearchCalls(api, ps, teamID) == [TeamsCall(ps[0].0, ps[0].1)] + rest;
    assert ps[1..][|rest| - 1] == ps[|rest|];
    assert SearchFound(api, ps, teamID) == SearchFound(api, ps[1..], teamID);
  }

  /** A team the search finds carries the asked ID. */
  lemma {:induction false} SearchFoundHasID(api: SportsApi, ps: seq<(int, int)>, teamID: int)
    requires SearchFound(api, ps, teamID).Some?
    ensures SearchFound(api, ps, teamID).value.id == Itoa(teamID)
    decreases |ps|
  {
    if Lookup(api, ps[0], teamID).None? {
      SearchFoundHasID(api, ps[1..], teamID);
    } else {
      FindByIDIsFirst(CatalogOf(api.TeamsAnswer(ps[0].0, ps[0].1).value, ps[0].0), Itoa(teamID));
    }
  }

  lemma ConcatAssoc<T>(a: seq<T>, b: seq<T>, c: seq<T>)
    ensures a + (b + c) == (a + b) + c
    ensures a + b + [] == a + b
  {
  }

  // The search from pair k on is one step then, unless that step hit, the search from pair k + 1 on.

  lemma SearchFoundUnfold(api: SportsApi, ps: seq<(int, int)>, k: nat, teamID: int)
    requires k < |ps|
    ensures SearchFound(api, ps[k..], teamID) ==
      if Lookup(api, ps[k], teamID).Some? then Lookup(api, ps[k], teamID) else SearchFound(api, ps[k + 1..], teamID)
  {
    var q := ps[k..];
    assert q[0] == ps[k] && q[1..] == ps[k + 1..];
  }

  lemma SearchStateUnfold(m: Entries, online: bool, api: SportsApi, ps: seq<(int, int)>, k: nat, teamID: int)
    requires k < |ps|
    ensures SearchState(m, online, api, ps[k..], teamID) ==
      if Lookup(api, ps[k], teamID).Some? then SearchStep(m, online, api, ps[k])
      else SearchState(SearchStep(m, online, api, ps[k]), online, api, ps[k + 1..], teamID)
  {
    var q := ps[k..];
    assert q[0] == ps[k] && q[1..] == ps[k + 1..];
  }

  lemma SearchWritesUnfold(online: bool, api: SportsApi, ps: seq<(int, int)>, k: nat, teamID: int)
    requires k < |ps|
    ensures SearchWrites(online, api, ps[k..], teamID) == StepWrites(online, api, ps[k]) +
      if Lookup(api, ps[k], teamID).Some? then [] else SearchWrites(online, api, ps[k + 1..], teamID)
  {
    var q := ps[k..];
    assert q[0] == ps[k] && q[1..] == ps[k + 1..];
  }

  lemma SearchCallsUnfold(api: SportsApi, ps: seq<(int, int)>, k: nat, teamID: int)
    requires k < |ps|
    ensures SearchCalls(api, ps[k..], teamID) == [TeamsCall(ps[k].0, ps[k].1)] +
      if Lookup(api, ps[k], teamID).Some? then [] else SearchCalls(api, ps[k + 1..], teamID)
  {
    var q := ps[k..];
    assert q[0] == ps[k] && q[1..] == ps[k + 1..];
  }

  /** The name-to-ID pairs FetchAndCacheTeams hands to CacheTeamID, in catalog order. */
  function IdPairs(ts: seq<Team>): (ps: seq<(string, string)>)
    ensures |ps| == |ts|
    ensures forall i :: 0 <= i < |ts| ==> ps[i] == (ts[i].name, ts[i].id)
  {
    seq(|ts|, i requires 0 <= i < |ts| => (ts[i].name, ts[i].id))
  }

  /**
   * After a catalog is fetched and saved, GetTeamByID finds each of its teams by
   * the API's ID, provided no later entry repeats that ID and "team:<id>" did not
   * hold a blob.
   */
  lemma FetchedTeamReadableByID(m: Entries, resps: seq<TeamResp>, league: int, season: int, i: nat)
    requires i < |resps|
    requires forall j :: 0 <= j < |resps| ==> InRange(resps[j].id)
    requires forall j :: i < j < |resps| ==> resps[j].id != resps[i].id
    requires !(TeamKeyFor(resps[i].id) in m && m[TeamKeyFor(resps[i].id)].Blob?)
    ensures GetTeamByIDOf(SaveAllState(m, true, league, season, CatalogOf(resps, league)), true, resps[i].id)
         == Ok(ToTeam(resps[i], league))
  {
    var ts := CatalogOf(resps, league);
    var n := resps[i].id;
    forall j | 0 <= j < |ts|
      ensures Atoi(ts[j].id) == Some(resps[j].id)
    {
      ToTeamIDRoundTrip(resps[j], league);
    }
    var m1 := SetOf(m, true, TeamsKey(league, season), EncodeTeams(ts), 0);
    PrefixedKeysDisjoint(Itoa(n), league, season, RoundQuery("", 0, "", "", ""), "", "", "", "", "");
    assert TeamKeyFor(n) != TeamsKey(league, season);
    SaveAllThenGetByID(m1, ts, i, n);
  }

  /** Every catalog the API answers has 64-bit IDs, none repeated. */
  predicate DistinctCatalogs(api: SportsApi) {
    forall p | p in api.teams && api.teams[p].Ok? ::
      (forall j :: 0 <= j < |api.teams[p].value| ==> InRange(api.teams[p].value[j].id)) &&
      (forall j, k :: 0 <= j < k < |api.teams[p].value| ==> api.teams[p].value[j].id != api.teams[p].value[k].id)
  }

  /** One search step never turns "team:<n>" into a blob. */
  lemma SearchStepKeepsHashKey(m: Entries, api: SportsApi, p: (int, int), n: int)
    requires !(TeamKeyFor(n) in m && m[TeamKeyFor(n)].Blob?)
    ensures var m' := SearchStep(m, true, api, p); !(TeamKeyFor(n) in m' && m'[TeamKeyFor(n)].Blob?)
  {
    if api.TeamsAnswer(p.0, p.1).Ok? {
      var ts := CatalogOf(api.TeamsAnswer(p.0, p.1).value, p.0);
      var m1 := SetOf(m, true, TeamsKey(p.0, p.1), EncodeTeams(ts), 0);
      PrefixedKeysDisjoint(Itoa(n), p.0, p.1, RoundQuery("", 0, "", "", ""), "", "", "", "", "");
      assert GetOf(m1, true, TeamKeyFor(n)) == GetOf(m, true, TeamKeyFor(n));
      HashTeamsFrame(m1, ts, TeamKeyFor(n));
    }
  }

  /** The pair that yields the team caches it: GetTeamByID then finds it in the store. */
  lemma HitStepCachesTeam(m: Entries, api: SportsApi, p: (int, int), teamID: int)
    requires DistinctCatalogs(api)
    requires !(TeamKeyFor(teamID) in m && m[TeamKeyFor(teamID)].Blob?)
    requires Lookup(api, p, teamID).Some?
    ensures GetTeamByIDOf(SearchStep(m, true, api, p), true, teamID) == Ok(Lookup(api, p, teamID).value)
  {
    var rs := api.TeamsAnswer(p.0, p.1).value;
    var ts := CatalogOf(rs, p.0);
    FindByIDIsFirst(ts, Itoa(teamID));
    var i :| 0 <= i < |ts| && ts[i] == Lookup(api, p, teamID).value && ts[i].id == Itoa(teamID);
    ItoaInjective(rs[i].id, teamID);
    FetchedTeamReadableByID(m, rs, p.0, p.1, i);
  }

  /**
   * After GetTeamByID found a team upstream, the store serves it: a second
   * GetTeamByID returns it from the cache without asking the API.
   */
  lemma {:induction false} SearchCachesFoundTeam(m: Entries, api: SportsApi, ps: seq<(int, int)>, teamID: int)
    requires DistinctCatalogs(api)
    requires !(TeamKeyFor(teamID) in m && m[TeamKeyFor(teamID)].Blob?)
    requires SearchFound(api, ps, teamID).Some?
    ensures GetTeamByIDOf(SearchState(m, true, api, ps, teamID), true, teamID) == Ok(SearchFound(api, ps, teamID).value)
    decreases |ps|
  {
    if Lookup(api, ps[0], teamID).Some? {
      HitStepCachesTeam(m, api, ps[0], teamID);
    } else {
      SearchStepKeepsHashKey(m, api, ps[0], teamID);
      SearchCachesFoundTeam(SearchStep(m, true, api, ps[0]), api, ps[1..], teamID);
    }
  }

  /** GetTeamByID's answer: the cached team, else the team the search finds, else TeamNotFound. */
  function TeamByIDOf(m: Entries, online: bool, api: SportsApi, teamID: int): Result<Team> {
    if GetTeamByIDOf(m, online, teamID).Ok? then GetTeamByIDOf(m, online, teamID)
    else if SearchFound(api, Pairs, teamID).Some? then Ok(SearchFound(api, Pairs, teamID).value)
    else Err(TeamNotFound)
  }

  /** The store after GetTeamByID: untouched on a cache hit, else the search's saves. */
  function TeamByIDState(m: Entries, online: bool, api: SportsApi, teamID: int): Entries {
    if GetTeamByIDOf(m, online, teamID).Ok? then m else SearchState(m, online, api, Pairs, teamID)
  }

  function TeamByIDWrites(m: Entries, online: bool, api: SportsApi, teamID: int): seq<Write> {
    if GetTeamByIDOf(m, online, teamID).Ok? then [] else SearchWrites(online, api, Pairs, teamID)
  }

  function TeamByIDCalls(m: Entries, online: bool, api: SportsApi, teamID: int): seq<ApiCall> {
    if GetTeamByIDOf(m, online, teamID).Ok? then [] else SearchCalls(api, Pairs, teamID)
  }

  /** A team GetTeamByID does not find in the store comes from the API and carries the asked ID. */
  lemma TeamByIDUpstreamHasID(m: Entries, online: bool, api: SportsApi, teamID: int)
    requires GetTeamByIDOf(m, online, teamID).Err? && TeamByIDOf(m, online, api, teamID).Ok?
    ensures TeamByIDOf(m, online, api, teamID).value.id == Itoa(teamID)
    ensures TeamByIDOf(m, online, api, teamID) == Ok(SearchFound(api, Pairs, teamID).value)
  {
    SearchFoundHasID(api, Pairs, teamID);
  }

  /**
   * With the store online, a team found upstream is cached: asking GetTeamByID
   * again gives the same answer from the store, with no API call and no write.
   */
  lemma TeamByIDThenCached(m: Entries, api: SportsApi, teamID: int)
    requires DistinctCatalogs(api)
    requires !(TeamKeyFor(teamID) in m && m[TeamKeyFor(teamID)].Blob?)
    requires TeamByIDOf(m, true, api, teamID).Ok?
    ensures var m' := TeamByIDState(m, true, api, teamID);
      TeamByIDOf(m', true, api, teamID) == TeamByIDOf(m, true, api, teamID) &&
      TeamByIDCalls(m', true, api, teamID) == [] && TeamByIDWrites(m', true, api, teamID) == []
  {
    if GetTeamByIDOf(m, true, teamID).Err? {
      SearchCachesFoundTeam(m, api, Pairs, teamID);
    }
  }

  class TeamUsecase {
    const repo: TeamRepo
    const extras: TeamRepoExtras
    const api: SportsApi

    constructor (repo: TeamRepo, extras: TeamRepoExtras, api: SportsApi)
      ensures this.repo == repo && this.extras == extras && this.api == api
    {
      this.repo := repo;
      this.extras := extras;
      this.api := api;
    }

    method GetTeam(id: string) returns (r: Result<Team>)
      ensures r == GetTeamOf(repo.store.entries, repo.store.online, id)
    {
      r := repo.Get(id);
    }

    method AddTeam(t: Team) returns (r: Outcome)
      modifies repo.store
      ensures r == AddResult(old(repo.store.entries), repo.store.online, t)
      ensures repo.store.entries == AddState(old(repo.store.entries), repo.store.online, t)
      ensures repo.store.log == old(repo.store.log) + AddLog(old(repo.store.entries), repo.store.online, t)
    {
      r := repo.Add(t);
    }

    method StatisticsByID(league: int, season: int, team: int) returns (r: Result<Stats>)
      modifies extras, api
      ensures r == StatisticsByIDOf(extras, api, league, season, team)
      ensures extras.statsReads == old(extras.statsReads) + [team]
      ensures api.calls == old(api.calls) + StatsApiCalls(extras, league, season, team)
      ensures extras.statsSaves == old(extras.statsSaves) + StatsSaves(extras, api, league, season, team)
      ensures extras.idCache == old(extras.idCache)
    {
      var cached := extras.GetTeamStats(team);
      if cached.Some? {
        return Ok(cached.value);
      }
      var stats := api.Statistics(league, season, team);
      if stats.Err? {
        return Err(stats.error);
      }
      extras.SaveTeamStats(team, stats.value);
      r := Ok(stats.value);
    }

    method Statistics(league: int, season: int, team: string) returns (r: Result<Stats>)
      modifies extras, api
      ensures r == StatisticsOf(repo.store.entries, repo.store.online, extras, api, league, season, team)
      ensures GetIDOf(repo.store.entries, repo.store.online, team).Err? ==>
        extras.statsReads == old(extras.statsReads) && extras.statsSaves == old(extras.statsSaves) && api.calls == old(api.calls)
      ensures GetIDOf(repo.store.entries, repo.store.online, team).Ok? ==>
        var id := GetIDOf(repo.store.entries, repo.store.online, team).value;
        extras.statsReads == old(extras.statsReads) + [id] &&
        api.calls == old(api.calls) + StatsApiCalls(extras, league, season, id) &&
        extras.statsSaves == old(extras.statsSaves) + StatsSaves(extras, api, league, season, id)
      ensures extras.idCache == old(extras.idCache)
    {
      var id := repo.GetID(team);
      if id.Err? {
        return Err(InternalServer);
      }
      r := StatisticsByID(league, season, id.value);
    }

    /**
     * The store's team, or else the first team with that ID in the catalogs of the
     * league and season pairs, each catalog fetched being cached on the way.
     */
    method GetTeamByID(teamID: int) returns (r: Result<Team>)
      modifies repo.store, api
      ensures r == TeamByIDOf(old(repo.store.entries), repo.store.online, api, teamID)
      ensures repo.store.entries == TeamByIDState(old(repo.store.entries), repo.store.online, api, teamID)
      ensures repo.store.log == old(repo.store.log) + TeamByIDWrites(old(repo.store.entries), repo.store.online, api, teamID)
      ensures api.calls == old(api.calls) + TeamByIDCalls(old(repo.store.entries), repo.store.online, api, teamID)
    {
      var cached := repo.GetTeamByID(teamID);
      if cached.Ok? {
        return cached;
      }
      r := SearchLeagues(teamID);
    }

    /** The leagues loop of GetTeamByID: the search over all the pairs. */
    method SearchLeagues(teamID: int) returns (r: Result<Team>)
      modifies repo.store, api
      ensures r == (if SearchFound(api, Pairs, teamID).Some? then Ok(SearchFound(api, Pairs, teamID).value) else Err(TeamNotFound))
      ensures repo.store.entries == SearchState(old(repo.store.entries), repo.store.online, api, Pairs, teamID)
      ensures repo.store.log == old(repo.store.log) + SearchWrites(repo.store.online, api, Pairs, teamID)
      ensures api.calls == old(api.calls) + SearchCalls(api, Pairs, teamID)
    {
      ghost var m0, l0, c0 := repo.store.entries, repo.store.log, api.calls;
      assert Pairs[3 * 0..] == Pairs;
      for li := 0 to |Leagues|
        invariant SearchFound(api, Pairs, teamID) == SearchFound(api, Pairs[3 * li..], teamID)
        invariant SearchState(m0, repo.store.online, api, Pairs, teamID) == SearchState(repo.store.entries, repo.store.online, api, Pairs[3 * li..], teamID)
        invariant l0 + SearchWrites(repo.store.online, api, Pairs, teamID) == repo.store.log + SearchWrites(repo.store.online, api, Pairs[3 * li..], teamID)
        invariant c0 + SearchCalls(api, Pairs, teamID) == api.calls + SearchCalls(api, Pairs[3 * li..], teamID)
      {
        var found := SearchLeague(li, teamID);
        if found.Some? {
          return Ok(found.value);
        }
      }
      assert Pairs[3 * |Leagues|..] == [];
      r := Err(TeamNotFound);
    }

    /** The seasons loop of GetTeamByID for one league: the search over that league's pairs. */
    method SearchLeague(li: nat, teamID: int) returns (found: Option<Team>)
      requires li < |Leagues|
      modifies repo.store, api
      ensures found.Some? ==>
        found == SearchFound(api, Pairs[3 * li..], teamID) &&
        repo.store.entries == SearchState(old(repo.store.entries), repo.store.online, api, Pairs[3 * li..], teamID) &&
        repo.store.log == old(repo.store.log) + SearchWrites(repo.store.online, api, Pairs[3 * li..], teamID) &&
        api.calls == old(api.calls) + SearchCalls(api, Pairs[3 * li..], teamID)
      ensures found.None? ==>
        SearchFound(api, Pairs[3 * li..], teamID) == SearchFound(api, Pairs[3 * li + 3..], teamID) &&
        SearchState(old(repo.store.entries), repo.store.online, api, Pairs[3 * li..], teamID)
          == SearchState(repo.store.entries, repo.store.online, api, Pairs[3 * li + 3..], teamID) &&
        old(repo.store.log) + SearchWrites(repo.store.online, api, Pairs[3 * li..], teamID)
          == repo.store.log + SearchWrites(repo.store.online, api, Pairs[3 * li + 3..], teamID) &&
        old(api.calls) + SearchCalls(api, Pairs[3 * li..], teamID)
          == api.calls + SearchCalls(api, Pairs[3 * li + 3..], teamID)
    {
      ghost var k0 := 3 * li;
      for si := 0 to |Seasons|
        invariant SearchFound(api, Pairs[k0..], teamID) == SearchFound(api, Pairs[k0 + si..], teamID)
        invariant SearchState(old(repo.store.entries), repo.store.online, api, Pairs[k0..], teamID)
          == SearchState(repo.store.entries, repo.store.online, api, Pairs[k0 + si..], teamID)
        invariant old(repo.store.log) + SearchWrites(repo.store.online, api, Pairs[k0..], teamID)
          == repo.store.log + SearchWrites(repo.store.online, api, Pairs[k0 + si..], teamID)
        invariant old(api.calls) + SearchCalls(api, Pairs[k0..], teamID)
          == api.calls + SearchCalls(api, Pairs[k0 + si..], teamID)
      {
        PairAt(li, si);
        SearchFoundUnfold(api, Pairs, k0 + si, teamID);
        SearchStateUnfold(repo.store.entries, repo.store.online, api, Pairs, k0 + si, teamID);
        SearchWritesUnfold(repo.store.online, api, Pairs, k0 + si, teamID);
        SearchCallsUnfold(api, Pairs, k0 + si, teamID);
        ghost var log1, calls1 := repo.store.log, api.calls;
        ghost var hit := Lookup(api, Pairs[k0 + si], teamID).Some?;
        found := SearchPair(Leagues[li], Seasons[si], teamID);
        ConcatAssoc(log1, StepWrites(repo.store.online, api, Pairs[k0 + si]),
                    if hit then [] else SearchWrites(repo.store.online, api, Pairs[k0 + si + 1..], teamID));
        ConcatAssoc(calls1, [TeamsCall(Pairs[k0 + si].0, Pairs[k0 + si].1)],
                    if hit then [] else SearchCalls(api, Pairs[k0 + si + 1..], teamID));
        if found.Some? {
          return;
        }
      }
      found := None;
    }

    /** One step of GetTeamByID: fetch the pair's catalog, cache it, and look for the team in it. */
    method SearchPair(league: int, season: int, teamID: int) returns (found: Option<Team>)
      modifies repo.store, api
      ensures found == Lookup(api, (league, season), teamID)
      ensures repo.store.entries == SearchStep(old(repo.store.entries), repo.store.online, api, (league, season))
      ensures repo.store.log == old(repo.store.log) + StepWrites(repo.store.online, api, (league, season))
      ensures api.calls == old(api.calls) + [TeamsCall(league, season)]
    {
      var resp := api.GetTeams(league, season);
      if resp.Err? {
        return None;
      }
      var teams := Catalog(resp.value, league);
      var _ := repo.SaveAllTeams(league, season, teams);
      found := FindTeam(teams, Itoa(teamID));
    }

    /** Fetches one league season's catalog, hands each name and ID to CacheTeamID, and saves the catalog. */
    method FetchAndCacheTeams(leagueID: int, season: int) returns (r: Outcome)
      modifies repo.store, api, extras
      ensures api.calls == old(api.calls) + [TeamsCall(leagueID, season)]
      ensures extras.statsReads == old(extras.statsReads) && extras.statsSaves == old(extras.statsSaves)
      ensures api.TeamsAnswer(leagueID, season).Err? ==>
        r == Fail(api.TeamsAnswer(leagueID, season).error) &&
        repo.store.entries == old(repo.store.entries) && repo.store.log == old(repo.store.log) &&
        extras.idCache == old(extras.idCache)
      ensures api.TeamsAnswer(leagueID, season).Ok? ==>
        var ts := CatalogOf(api.TeamsAnswer(leagueID, season).value, leagueID);
        r == SaveAllResult(repo.store.online) &&
        repo.store.entries == SaveAllState(old(repo.store.entries), repo.store.online, leagueID, season, ts) &&
        repo.store.log == old(repo.store.log) + SaveAllLog(repo.store.online, leagueID, season, ts) &&
        extras.idCache == old(extras.idCache) + IdPairs(ts)
    {
      var resp := api.GetTeams(leagueID, season);
      if resp.Err? {
        return Fail(resp.error);
      }
      var teams: seq<Team> := [];
      for i := 0 to |resp.value|
        invariant |teams| == i
        invariant forall j :: 0 <= j < i ==> teams[j] == ToTeam(resp.value[j], leagueID)
        invariant extras.idCache == old(extras.idCache) + IdPairs(teams)
        invariant extras.statsReads == old(extras.statsReads) && extras.statsSaves == old(extras.statsSaves)
        invariant repo.store.entries == old(repo.store.entries) && repo.store.log == old(repo.store.log)
        invariant api.calls == old(api.calls) + [TeamsCall(leagueID, season)]
      {
        var t := ToTeam(resp.value[i], leagueID);
        assert IdPairs(teams + [t]) == IdPairs(teams) + [(t.name, t.id)];
        teams := teams + [t];
        extras.CacheTeamID(t.name, t.id);
      }
      assert teams == CatalogOf(resp.value, leagueID);
      r := repo.SaveAllTeams(leagueID, season, teams);
    }
  }
}
