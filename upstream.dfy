/**
 * The upstream sports-data API. The teams and statistics endpoints (IAPIService)
 * are abstract answer tables; FetchFixturesFromAPI is modelled down to its league
 * resolution, query parameters, status check and response-to-Fixture mapping,
 * with the HTTP exchange itself a table from query to reply. Each object keeps a
 * log of the calls made to it.
 */
module Upstream {
  import opened Domain
  import opened Numeric

  datatype ApiCall = TeamsCall(league: int, season: int) | StatsCall(league: int, season: int, team: int)

  /** IAPIService: GetTeams and Statistics, answered from tables; a missing entry is an upstream error. */
  class SportsApi {
    const teams: map<(int, int), Result<seq<TeamResp>>>
    const stats: map<(int, int, int), Result<Stats>>
    var calls: seq<ApiCall>

    constructor (teams: map<(int, int), Result<seq<TeamResp>>>, stats: map<(int, int, int), Result<Stats>>)
      ensures this.teams == teams && this.stats == stats && calls == []
    {
      this.teams := teams;
      this.stats := stats;
      calls := [];
    }

    function TeamsAnswer(league: int, season: int): Result<seq<TeamResp>> {
      if (league, season) in teams then teams[(league, season)] else Err(Upstream("no teams response"))
    }

    function StatsAnswer(league: int, season: int, team: int): Result<Stats> {
      if (league, season, team) in stats then stats[(league, season, team)] else Err(Upstream("no statistics response"))
    }

    method GetTeams(league: int, season: int) returns (r: Result<seq<TeamResp>>)
      modifies this
      ensures r == TeamsAnswer(league, season)
      ensures calls == old(calls) + [TeamsCall(league, season)]
    {
      calls := calls + [TeamsCall(league, season)];
      r := TeamsAnswer(league, season);
    }

    method Statistics(league: int, season: int, team: int) returns (r: Result<Stats>)
      modifies this
      ensures r == StatsAnswer(league, season, team)
      ensures calls == old(calls) + [StatsCall(league, season, team)]
    {
      calls := calls + [StatsCall(league, season, team)];
      r := StatsAnswer(league, season, team);
    }
  }

  /** One element of the fixtures endpoint's "response" array. */
  datatype ApiItem = ApiItem(date: string, homeName: string, homeLogo: string, awayName: string, awayLogo: string)

  /** An HTTP reply: its status and its body, None when the body is not valid JSON. */
  datatype Reply = Reply(status: int, body: Option<seq<ApiItem>>)

  type Query = map<string, string>

  /** The league parameter: "EPL" is 39, "ETH" is 363, a numeric string is itself. */
  function ResolveLeague(league: string): (r: Result<int>)
    ensures league == "EPL" ==> r == Ok(39)
    ensures league == "ETH" ==> r == Ok(363)
    ensures r.Err? <==> league != "EPL" && league != "ETH" && Atoi(league).None?
    ensures r.Err? ==> r.error == UnknownLeague(league)
  {
    if league == "EPL" then Ok(39)
    else if league == "ETH" then Ok(363)
    else if Atoi(league).Some? then Ok(Atoi(league).value)
    else Err(UnknownLeague(league))
  }

  /** Any printed 64-bit league ID resolves to itself. */
  lemma NumericLeagueResolves(n: int)
    requires InRange(n)
    ensures ResolveLeague(Itoa(n)) == Ok(n)
  {
    AtoiItoa(n);
    var s := Itoa(n);
    assert s[0] == '-' || IsDigit(s[0]);
    assert s != "EPL" && s != "ETH";
  }

  /** The query string: league always; from, to and season when given; team when given and numeric. */
  function QueryFor(leagueID: int, team: string, season: string, from: string, to: string): (q: Query)
    ensures "league" in q && q["league"] == Itoa(leagueID)
    ensures "from" in q <==> from != ""
    ensures "to" in q <==> to != ""
    ensures "season" in q <==> season != ""
    ensures "team" in q <==> team != "" && Atoi(team).Some?
    ensures forall p :: p in q && p != "league" ==>
      q[p] == (if p == "from" then from else if p == "to" then to else if p == "season" then season else team)
    ensures q.Keys <= {"league", "from", "to", "season", "team"}
  {
    var q0 := map["league" := Itoa(leagueID)];
    var q1 := if from != "" then q0["from" := from] else q0;
    var q2 := if to != "" then q1["to" := to] else q1;
    var q3 := if season != "" then q2["season" := season] else q2;
    if team != "" && Atoi(team).Some? then q3["team" := team] else q3
  }

  /** The query parameters, set one by one as the adapter does. */
  method BuildQuery(leagueID: int, team: string, season: string, from: string, to: string) returns (q: Query)
    ensures q == QueryFor(leagueID, team, season, from, to)
  {
    q := map[];
    q := q["league" := Itoa(leagueID)];
    if from != "" {
      q := q["from" := from];
    }
    if to != "" {
      q := q["to" := to];
    }
    if season != "" {
      q := q["season" := season];
    }
    if team != "" {
      if Atoi(team).Some? {
        q := q["team" := team];
      }
    }
  }

  function ToFixture(item: ApiItem, now: string): Fixture {
    Fixture(item.date, item.date, item.homeName, item.awayName, "scheduled", item.homeLogo, item.awayLogo, now)
  }

  /** One Fixture per response item, in order, all stamped with the same time. */
  function MappedFixtures(items: seq<ApiItem>, now: string): (fs: seq<Fixture>)
    ensures |fs| == |items|
    ensures forall i :: 0 <= i < |items| ==>
      fs[i].id == items[i].date && fs[i].dateUtc == items[i].date && fs[i].status == "scheduled" &&
      fs[i].homeName == items[i].homeName && fs[i].awayName == items[i].awayName &&
      fs[i].homeLogo == items[i].homeLogo && fs[i].awayLogo == items[i].awayLogo &&
      fs[i].lastUpdated == now
  {
    seq(|items|, i requires 0 <= i < |items| => ToFixture(items[i], now))
  }

  /** The mapping loop of FetchFixturesFromAPI. */
  method MapFixtures(items: seq<ApiItem>, now: string) returns (fs: seq<Fixture>)
    ensures fs == MappedFixtures(items, now)
  {
    fs := [];
    for i := 0 to |items|
      invariant |fs| == i
      invariant forall j :: 0 <= j < i ==> fs[j] == ToFixture(items[j], now)
    {
      fs := fs + [ToFixture(items[i], now)];
    }
  }

  /**
   * FetchFixturesFromAPI: (apiKey, replies, now) stand for the environment, the
   * HTTP exchange and the clock. A query without a reply is a transport error.
   */
  function FetchOf(apiKey: string, replies: map<Query, Reply>, now: string,
                   league: string, team: string, season: string, from: string, to: string): (r: Result<seq<Fixture>>)
    ensures apiKey == "" ==> r == Err(MissingApiKey)
    ensures apiKey != "" && ResolveLeague(league).Err? ==> r == Err(UnknownLeague(league))
    ensures r.Ok? ==> apiKey != "" && ResolveLeague(league).Ok?
    ensures r.Ok? ==>
      (var q := QueryFor(ResolveLeague(league).value, team, season, from, to);
       q in replies && replies[q].status < 400 && replies[q].body.Some? &&
       r.value == MappedFixtures(replies[q].body.value, now))
    ensures r.Err? && apiKey != "" && ResolveLeague(league).Ok? ==>
      (var q := QueryFor(ResolveLeague(league).value, team, season, from, to);
       q !in replies || replies[q].status >= 400 || replies[q].body.None?)
  {
    if apiKey == "" then Err(MissingApiKey)
    else match ResolveLeague(league)
      case Err(e) => Err(e)
      case Ok(id) =>
        var q := QueryFor(id, team, season, from, to);
        if q !in replies then Err(Transport)
        else if replies[q].status >= 400 then Err(HttpStatus(replies[q].status))
        else if replies[q].body.None? then Err(DecodeFailed)
        else Ok(MappedFixtures(replies[q].body.value, now))
  }

  /** The requests FetchFixturesFromAPI sends: one, unless it fails before building the request. */
  function RequestsOf(apiKey: string, league: string, team: string, season: string, from: string, to: string): seq<Query> {
    if apiKey == "" || ResolveLeague(league).Err? then []
    else [QueryFor(ResolveLeague(league).value, team, season, from, to)]
  }

  class FixtureApi {
    const apiKey: string
    const replies: map<Query, Reply>
    const now: string
    var requests: seq<Query>

    constructor (apiKey: string, replies: map<Query, Reply>, now: string)
      ensures this.apiKey == apiKey && this.replies == replies && this.now == now && requests == []
    {
      this.apiKey := apiKey;
      this.replies := replies;
      this.now := now;
      requests := [];
    }

    method FetchFixtures(league: string, team: string, season: string, from: string, to: string)
      returns (r: Result<seq<Fixture>>)
      modifies this
      ensures r == FetchOf(apiKey, replies, now, league, team, season, from, to)
      ensures requests == old(requests) + RequestsOf(apiKey, league, team, season, from, to)
    {
      if apiKey == "" {
        return Err(MissingApiKey);
      }
      var leagueID := ResolveLeague(league);
      if leagueID.Err? {
        return Err(leagueID.error);
      }
      var q := BuildQuery(leagueID.value, team, season, from, to);
      requests := requests + [q];
      if q !in replies {
        return Err(Transport);
      }
      var reply := replies[q];
      if reply.status >= 400 {
        return Err(HttpStatus(reply.status));
      }
      if reply.body.None? {
        return Err(DecodeFailed);
      }
      var fixtures := MapFixtures(reply.body.value, now);
      r := Ok(fixtures);
    }
  }
}
