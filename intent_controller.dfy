/**
 * The intent handlers: POST /intent parses a question into an intent, routes it
 * by topic to the use cases, wraps what they return in an AnswerContext under
 * the single key "data" and hands that to the answer composer; GET /compare
 * compares two teams by numeric ID. The collaborators whose implementation is not
 * part of this model (intent parsing, fixtures by round, standings, the four news
 * generators and the composer) are the fixed answers of a Services value; the
 * team statistics go through the modelled TeamUsecase. Every collaborator call is
 * recorded in the controller's `calls`.
 */
module IntentControllers {
  import opened Domain
  import opened Numeric
  import opened KeyValue
  import opened TeamRepository
  import opened Upstream
  import opened TeamUsecases
  import opened Http

  /** The classified question. */
  datatype Intent = Intent(topic: string, league: string, language: string, teams: seq<string>)

  // Opaque results of the collaborators that are not modelled.
  datatype RoundAnswer = RoundAnswer(summary: string)
  datatype Standings = Standings(table: string)
  datatype News = News(text: string)
  datatype Answer = Answer(markdown: string, source: string, freshness: string)

  /** The value a topic leaves in `data`; NoData is the nil interface. */
  datatype Data =
    | NoData
    | Rounds(answers: seq<RoundAnswer>)
    | Table(standings: Standings)
    | NewsList(items: GoSlice<News>)
    | Comparison(teamA: Stats, teamB: Stats)
    | TeamNames(names: seq<string>)

  datatype AnswerContext = AnswerContext(
    topic: string, language: string, source: string, freshness: string, contextData: map<string, Data>)

  /** The gin.H bodies the intent handlers write. */
  datatype Body =
    | ErrorText(msg: string)
    | ErrorOf(err: Error)
    | AnswerBody(answer: Answer)
    | ComparisonBody(teamA: Stats, teamB: Stats)

  /**
   * The unmodelled collaborators as fixed functions: ParseIntentUseCase.Execute,
   * GetCachedByRound, GetStandings, the four news generators (in the order the
   * handler calls them) and Compose.
   */
  datatype Services = Services(
    parse: string -> Result<Intent>,
    byRound: RoundQuery -> Result<RoundAnswer>,
    standings: (int, int) -> Result<Standings>,
    standingNews: Result<News>,
    futureNews: Result<News>,
    liveScores: Result<News>,
    generalNews: Result<News>,
    compose: AnswerContext -> Result<Answer>)

  // The collaborators' answers, each named once so that the handlers and their specifications share one term.

  function Parse(s: Services, text: string): Result<Intent> {
    s.parse(text)
  }

  function ByRound(s: Services, q: RoundQuery): Result<RoundAnswer> {
    s.byRound(q)
  }

  function StandingsOf(s: Services, league: int, season: int): Result<Standings> {
    s.standings(league, season)
  }

  function Compose(s: Services, ctx: AnswerContext): Result<Answer> {
    s.compose(ctx)
  }

  /** One call the handlers make to a collaborator. */
  datatype Call =
    | ParseCall(text: string)
    | RoundCall(query: RoundQuery)
    | StandingsCall(league: int, season: int)
    | NewsCall(generator: nat)
    | StatisticsCall(league: int, season: int, team: string)
    | StatsByIDCall(league: int, season: int, teamID: int)
    | ComposeCall(ctx: AnswerContext)

  /** The season every intent is answered for, and the round the fixture topic asks for. */
  const DefaultSeason: int := 2022
  const DefaultRound: string := "1"

  /** The league switch of ParseIntent: an unknown code silently leaves the ID at 0. */
  function LeagueIDOf(code: string): (id: int)
    ensures code == "ETH" <==> id == 363
    ensures code == "EPL" <==> id == 39
    ensures id == 0 <==> code != "ETH" && code != "EPL"
  {
    if code == "ETH" then 363 else if code == "EPL" then 39 else 0
  }

  /** The dispatcher and the fixtures adapter agree on the two known codes. */
  lemma LeagueIDAgreesWithAdapter(code: string)
    requires LeagueIDOf(code) != 0
    ensures ResolveLeague(code) == Ok(LeagueIDOf(code))
  {
  }

  /** Where the fixtures adapter rejects an unknown code, the dispatcher goes on with league 0. */
  lemma UnknownCodeBecomesZero()
    ensures ResolveLeague("XYZ") == Err(UnknownLeague("XYZ"))
    ensures LeagueIDOf("XYZ") == 0
  {
    assert !IsDigit("XYZ"[0]);
  }

  /** The query of the fixture topic: the intent's league code, season 2022, round "1", no window. */
  function FixtureQuery(intent: Intent): RoundQuery {
    RoundQuery(intent.league, DefaultSeason, DefaultRound, "", "")
  }

  /** The four generator results, in the order the news topic calls them. */
  function NewsResults(s: Services): seq<Result<News>> {
    [s.standingNews, s.futureNews, s.liveScores, s.generalNews]
  }

  /** The values of the successful results, in order. */
  function Successes(rs: seq<Result<News>>): (ns: seq<News>)
    ensures |ns| <= |rs|
    decreases |rs|
  {
    if rs == [] then []
    else Successes(rs[..|rs| - 1]) + (if rs[|rs| - 1].Ok? then [rs[|rs| - 1].value] else [])
  }

  /** A news item is kept exactly when some generator returned it. */
  lemma {:induction false} SuccessesAreTheOks(rs: seq<Result<News>>, n: News)
    ensures n in Successes(rs) <==> Ok(n) in rs
    decreases |rs|
  {
    if rs != [] {
      var init := rs[..|rs| - 1];
      SuccessesAreTheOks(init, n);
      assert rs == init + [rs[|rs| - 1]];
    }
  }

  /** Keeping the successes of two runs of generators one after the other keeps their order. */
  lemma {:induction false} SuccessesConcat(a: seq<Result<News>>, b: seq<Result<News>>)
    ensures Successes(a + b) == Successes(a) + Successes(b)
    decreases |b|
  {
    if b != [] {
      var initB := b[..|b| - 1];
      assert (a + b)[..|a + b| - 1] == a + initB;
      SuccessesConcat(a, initB);
    } else {
      assert a + b == a;
    }
  }

  /** Nothing is dropped when every generator succeeds, and everything when all fail. */
  lemma {:induction false} SuccessesAllOrNone(rs: seq<Result<News>>)
    ensures (forall i :: 0 <= i < |rs| ==> rs[i].Ok?) ==> |Successes(rs)| == |rs|
    ensures (forall i :: 0 <= i < |rs| ==> rs[i].Err?) ==> Successes(rs) == []
    ensures |Successes(rs)| == |rs| ==> forall i :: 0 <= i < |rs| ==> rs[i].Ok?
    decreases |rs|
  {
    if rs != [] {
      var init := rs[..|rs| - 1];
      SuccessesAllOrNone(init);
      assert forall i :: 0 <= i < |init| ==> init[i] == rs[i];
    }
  }

  /** With two of the four generators failing, the news data holds the other two, in call order. */
  lemma TwoOfFourNewsFail(s: Services, i: nat, j: nat)
    requires i < j < 4
    requires forall k :: 0 <= k < 4 ==> (NewsResults(s)[k].Err? <==> k == i || k == j)
    ensures var ok := if i == 0 && j == 1 then [2, 3] else if i == 0 && j == 2 then [1, 3] else if i == 0 then [1, 2]
                      else if j == 2 then [0, 3] else if i == 1 then [0, 2] else [0, 1];
      Successes(NewsResults(s)) == [NewsResults(s)[ok[0]].value, NewsResults(s)[ok[1]].value]
  {
    var rs := NewsResults(s);
    SuccessesOne(rs[0]);
    SuccessesOne(rs[1]);
    SuccessesOne(rs[2]);
    SuccessesOne(rs[3]);
    SuccessesConcat([rs[0]], [rs[1]]);
    assert [rs[0]] + [rs[1]] == rs[..2];
    SuccessesConcat(rs[..2], [rs[2]]);
    assert rs[..2] + [rs[2]] == rs[..3];
    SuccessesConcat(rs[..3], [rs[3]]);
    assert rs[..3] + [rs[3]] == rs;
  }

  /** A single generator contributes its value when it succeeds and nothing when it fails. */
  lemma SuccessesOne(r: Result<News>)
    ensures Successes([r]) == if r.Ok? then [r.value] else []
  {
    assert [r][..0] == [];
  }

  /** The statistics of one named team as the team use case answers them. */
  function StatOf(uc: TeamUsecase, m: Entries, league: int, name: string): Result<Stats> {
    StatisticsOf(m, uc.repo.store.online, uc.extras, uc.api, league, DefaultSeason, name)
  }

  /** What a topic leads to: the data to compose, or a response that ends the request first. */
  datatype Dispatch = Proceed(data: Data) | Halt(resp: Response<Body>)

  /** The compare topic: both teams' statistics must be found, team A asked first. */
  function CompareOutcome(uc: TeamUsecase, m: Entries, league: int, teams: seq<string>): Dispatch {
    if |teams| < 2 then Halt(Response(StatusBadRequest, ErrorText("two teams are required for comparison")))
    else match StatOf(uc, m, league, teams[0])
      case Err(_) => Halt(Response(StatusInternalServerError, ErrorText("Error while fetching data for team A")))
      case Ok(a) =>
        match StatOf(uc, m, league, teams[1])
        case Err(_) => Halt(Response(StatusInternalServerError, ErrorText("Error while fetching data for team B")))
        case Ok(b) => Proceed(Comparison(a, b))
  }

  /** The topic switch of ParseIntent. */
  function TopicOutcome(s: Services, uc: TeamUsecase, m: Entries, intent: Intent): Dispatch {
    var league := LeagueIDOf(intent.league);
    if intent.topic == "fixture" then
      var r := ByRound(s, FixtureQuery(intent));
      Proceed(if r.Err? then NoData else Rounds([r.value]))
    else if intent.topic == "table" then
      var r := StandingsOf(s, league, DefaultSeason);
      if r.Err? then Halt(Response(StatusInternalServerError, ErrorText("Error while fetching standings")))
      else Proceed(Table(r.value))
    else if intent.topic == "news" then Proceed(NewsList(AppendTo(Nil, Successes(NewsResults(s)))))
    else if intent.topic == "compare" then CompareOutcome(uc, m, league, intent.teams)
    else if intent.topic == "fact" then Proceed(TeamNames(intent.teams))
    else Halt(Response(StatusBadRequest, ErrorText("unsupported topic")))
  }

  /** The context handed to the composer: one key, "data", and the intent's topic and language. */
  function ContextFor(intent: Intent, data: Data, now: string): (ctx: AnswerContext)
    ensures ctx.contextData.Keys == {"data"} && ctx.contextData["data"] == data
    ensures ctx.source == "api" && ctx.topic == intent.topic && ctx.language == intent.language && ctx.freshness == now
  {
    AnswerContext(intent.topic, intent.language, "api", now, map["data" := data])
  }

  /** The intent a request body yields, when it binds and parses. */
  function IntentOf(s: Services, input: Option<string>): Option<Intent> {
    if input.Some? && Parse(s, input.value).Ok? then Some(Parse(s, input.value).value) else None
  }

  /** The response of POST /intent, given the team store before the request; input None is a body that does not bind. */
  function ParseIntentResponse(s: Services, uc: TeamUsecase, m: Entries, input: Option<string>, now: string): Response<Body> {
    match input
    case None => Response(StatusBadRequest, ErrorText("invalid request body"))
    case Some(text) =>
      match Parse(s, text)
      case Err(e) =>
        if e.InvalidInput? then Response(StatusBadRequest, ErrorOf(e))
        else Response(StatusInternalServerError, ErrorText("internal server error"))
      case Ok(intent) => Respond(s, intent, TopicOutcome(s, uc, m, intent), now)
  }

  /** The response once the topic has run: its halting response, or the composer's answer to its data. */
  function Respond(s: Services, intent: Intent, d: Dispatch, now: string): Response<Body> {
    match d
    case Halt(resp) => resp
    case Proceed(data) =>
      match Compose(s, ContextFor(intent, data, now))
      case Err(_) => Response(StatusInternalServerError, ErrorText("failed to compose answer"))
      case Ok(answer) => Response(StatusOK, AnswerBody(answer))
  }

  /** The composer is called once, unless the topic ended the request. */
  function ComposeCalls(intent: Intent, d: Dispatch, now: string): seq<Call> {
    match d
    case Halt(_) => []
    case Proceed(data) => [ComposeCall(ContextFor(intent, data, now))]
  }

  /** The names a topic hands to Statistics. */
  function TopicLookups(uc: TeamUsecase, m: Entries, intent: Intent): seq<string> {
    if intent.topic == "compare" then CompareLookups(uc, m, LeagueIDOf(intent.league), intent.teams) else []
  }

  /** The teams whose statistics the compare topic asks for: none, team A alone, or both. */
  function CompareLookups(uc: TeamUsecase, m: Entries, league: int, teams: seq<string>): (names: seq<string>)
    ensures |names| <= 2
  {
    if |teams| < 2 then []
    else if StatOf(uc, m, league, teams[0]).Err? then [teams[0]]
    else [teams[0], teams[1]]
  }

  function StatisticsCalls(league: int, names: seq<string>): seq<Call>
    decreases |names|
  {
    if names == [] then [] else [StatisticsCall(league, DefaultSeason, names[0])] + StatisticsCalls(league, names[1..])
  }

  /** The collaborator calls of a topic, in order. */
  function TopicCalls(s: Services, uc: TeamUsecase, m: Entries, intent: Intent): seq<Call> {
    var league := LeagueIDOf(intent.league);
    if intent.topic == "fixture" then [RoundCall(FixtureQuery(intent))]
    else if intent.topic == "table" then [StandingsCall(league, DefaultSeason)]
    else if intent.topic == "news" then [NewsCall(0), NewsCall(1), NewsCall(2), NewsCall(3)]
    else if intent.topic == "compare" then StatisticsCalls(league, CompareLookups(uc, m, league, intent.teams))
    else []
  }

  /** The collaborator calls of POST /intent: parse, the topic's lookups, then compose unless the topic halted. */
  function ParseIntentCalls(s: Services, uc: TeamUsecase, m: Entries, input: Option<string>, now: string): seq<Call> {
    match input
    case None => []
    case Some(text) =>
      [ParseCall(text)] +
      match Parse(s, text)
      case Err(_) => []
      case Ok(intent) => TopicCalls(s, uc, m, intent) + ComposeCalls(intent, TopicOutcome(s, uc, m, intent), now)
  }

  /** The names POST /intent hands to Statistics. */
  function LookedUp(s: Services, uc: TeamUsecase, m: Entries, input: Option<string>): seq<string> {
    if IntentOf(s, input).Some? then TopicLookups(uc, m, IntentOf(s, input).value) else []
  }

  function LookedUpLeague(s: Services, input: Option<string>): int {
    if IntentOf(s, input).Some? then LeagueIDOf(IntentOf(s, input).value.league) else 0
  }

  // What Statistics does to the team use case's logs, name by name.

  function NameReads(uc: TeamUsecase, m: Entries, name: string): seq<int> {
    match GetIDOf(m, uc.repo.store.online, name)
    case Ok(id) => [id]
    case Err(_) => []
  }

  function NameApiCalls(uc: TeamUsecase, m: Entries, league: int, name: string): seq<ApiCall> {
    match GetIDOf(m, uc.repo.store.online, name)
    case Ok(id) => StatsApiCalls(uc.extras, league, DefaultSeason, id)
    case Err(_) => []
  }

  function NameSaves(uc: TeamUsecase, m: Entries, league: int, name: string): seq<(int, Stats)> {
    match GetIDOf(m, uc.repo.store.online, name)
    case Ok(id) => StatsSaves(uc.extras, uc.api, league, DefaultSeason, id)
    case Err(_) => []
  }

  function ReadsFor(uc: TeamUsecase, m: Entries, names: seq<string>): seq<int>
    decreases |names|
  {
    if names == [] then [] else NameReads(uc, m, names[0]) + ReadsFor(uc, m, names[1..])
  }

  function ApiCallsFor(uc: TeamUsecase, m: Entries, league: int, names: seq<string>): seq<ApiCall>
    decreases |names|
  {
    if names == [] then [] else NameApiCalls(uc, m, league, names[0]) + ApiCallsFor(uc, m, league, names[1..])
  }

  function SavesFor(uc: TeamUsecase, m: Entries, league: int, names: seq<string>): seq<(int, Stats)>
    decreases |names|
  {
    if names == [] then [] else NameSaves(uc, m, league, names[0]) + SavesFor(uc, m, league, names[1..])
  }

  /** The logs of one or two lookups, spelt out. */
  lemma LogsOfOneOrTwo(uc: TeamUsecase, m: Entries, league: int, a: string, b: string)
    ensures StatisticsCalls(league, [a]) == [StatisticsCall(league, DefaultSeason, a)]
    ensures StatisticsCalls(league, [a, b]) == [StatisticsCall(league, DefaultSeason, a)] + [StatisticsCall(league, DefaultSeason, b)]
    ensures ReadsFor(uc, m, [a]) == NameReads(uc, m, a)
    ensures ReadsFor(uc, m, [a, b]) == NameReads(uc, m, a) + NameReads(uc, m, b)
    ensures ApiCallsFor(uc, m, league, [a]) == NameApiCalls(uc, m, league, a)
    ensures ApiCallsFor(uc, m, league, [a, b]) == NameApiCalls(uc, m, league, a) + NameApiCalls(uc, m, league, b)
    ensures SavesFor(uc, m, league, [a]) == NameSaves(uc, m, league, a)
    ensures SavesFor(uc, m, league, [a, b]) == NameSaves(uc, m, league, a) + NameSaves(uc, m, league, b)
  {
    assert [a][1..] == [] && [a, b][1..] == [b] && [b][1..] == [];
  }

  // Properties of POST /intent.

  /** A body that binds but does not parse is a 400 for invalid input and a 500 otherwise; only the parser is called. */
  lemma ParseFailureStatus(s: Services, uc: TeamUsecase, m: Entries, text: string, now: string)
    requires Parse(s, text).Err?
    ensures var resp := ParseIntentResponse(s, uc, m, Some(text), now);
      (resp.status == StatusBadRequest <==> Parse(s, text).error.InvalidInput?) &&
      (resp.status == StatusInternalServerError <==> !Parse(s, text).error.InvalidInput?)
    ensures ParseIntentCalls(s, uc, m, Some(text), now) == [ParseCall(text)]
    ensures LookedUp(s, uc, m, Some(text)) == []
  {
  }

  /** The composer sees the data a topic produced, under the one key "data"; a 200 carries its answer. */
  lemma ComposedContext(s: Services, uc: TeamUsecase, m: Entries, text: string, now: string)
    requires Parse(s, text).Ok? && TopicOutcome(s, uc, m, Parse(s, text).value).Proceed?
    ensures var intent := Parse(s, text).value;
      var ctx := ContextFor(intent, TopicOutcome(s, uc, m, intent).data, now);
      var calls := ParseIntentCalls(s, uc, m, Some(text), now);
      calls[|calls| - 1] == ComposeCall(ctx) &&
      (ParseIntentResponse(s, uc, m, Some(text), now).status == StatusOK <==> Compose(s, ctx).Ok?) &&
      (Compose(s, ctx).Ok? ==> ParseIntentResponse(s, uc, m, Some(text), now).body == AnswerBody(Compose(s, ctx).value)) &&
      (Compose(s, ctx).Err? ==> ParseIntentResponse(s, uc, m, Some(text), now).status == StatusInternalServerError)
  {
  }

  /** The composer is called exactly when the topic did not end the request. */
  lemma ComposeOnlyAfterProceed(s: Services, uc: TeamUsecase, m: Entries, text: string, now: string)
    requires Parse(s, text).Ok?
    ensures var intent := Parse(s, text).value;
      (exists c :: c in ParseIntentCalls(s, uc, m, Some(text), now) && c.ComposeCall?)
        <==> TopicOutcome(s, uc, m, intent).Proceed?
    ensures var intent := Parse(s, text).value;
      TopicOutcome(s, uc, m, intent).Halt? ==>
        ParseIntentResponse(s, uc, m, Some(text), now) == TopicOutcome(s, uc, m, intent).resp
  {
    var intent := Parse(s, text).value;
    var calls := ParseIntentCalls(s, uc, m, Some(text), now);
    if TopicOutcome(s, uc, m, intent).Halt? {
      NoComposeInTopicCalls(s, uc, m, intent);
      assert calls == [ParseCall(text)] + TopicCalls(s, uc, m, intent);
    } else {
      assert calls[|calls| - 1].ComposeCall?;
    }
  }

  lemma NoComposeInTopicCalls(s: Services, uc: TeamUsecase, m: Entries, intent: Intent)
    ensures forall c :: c in TopicCalls(s, uc, m, intent) ==> !c.ComposeCall?
  {
    var league := LeagueIDOf(intent.league);
    StatisticsCallsPerName(league, CompareLookups(uc, m, league, intent.teams));
  }

  /** One statistics lookup per name, in the order of the names. */
  lemma {:induction false} StatisticsCallsPerName(league: int, names: seq<string>)
    ensures |StatisticsCalls(league, names)| == |names|
    ensures forall i :: 0 <= i < |names| ==> StatisticsCalls(league, names)[i] == StatisticsCall(league, DefaultSeason, names[i])
    decreases |names|
  {
    if names != [] {
      StatisticsCallsPerName(league, names[1..]);
    }
  }

  /** The fixture topic never fails the request: a lookup error composes with no data, a success with a one-element list. */
  lemma FixtureTopicNeverHalts(s: Services, uc: TeamUsecase, m: Entries, intent: Intent)
    requires intent.topic == "fixture"
    ensures TopicCalls(s, uc, m, intent) == [RoundCall(RoundQuery(intent.league, 2022, "1", "", ""))]
    ensures ByRound(s, FixtureQuery(intent)).Err? ==> TopicOutcome(s, uc, m, intent) == Proceed(NoData)
    ensures ByRound(s, FixtureQuery(intent)).Ok? ==>
      TopicOutcome(s, uc, m, intent) == Proceed(Rounds([ByRound(s, FixtureQuery(intent)).value]))
  {
  }

  /** A standings error is a 500 and the composer is not called. */
  lemma TableErrorIsFatal(s: Services, uc: TeamUsecase, m: Entries, text: string, now: string)
    requires Parse(s, text).Ok? && Parse(s, text).value.topic == "table"
    requires StandingsOf(s, LeagueIDOf(Parse(s, text).value.league), 2022).Err?
    ensures ParseIntentResponse(s, uc, m, Some(text), now) == Response(StatusInternalServerError, ErrorText("Error while fetching standings"))
    ensures ParseIntentCalls(s, uc, m, Some(text), now) == [ParseCall(text), StandingsCall(LeagueIDOf(Parse(s, text).value.league), 2022)]
  {
  }

  /** Compare needs two teams: with fewer it is a 400 and no statistics are looked up. */
  lemma CompareNeedsTwoTeams(s: Services, uc: TeamUsecase, m: Entries, text: string, now: string)
    requires Parse(s, text).Ok? && Parse(s, text).value.topic == "compare" && |Parse(s, text).value.teams| < 2
    ensures ParseIntentResponse(s, uc, m, Some(text), now) == Response(StatusBadRequest, ErrorText("two teams are required for comparison"))
    ensures ParseIntentCalls(s, uc, m, Some(text), now) == [ParseCall(text)]
    ensures LookedUp(s, uc, m, Some(text)) == []
  {
  }

  /** When team A's statistics fail the request ends with the team A message, and team B is never asked for. */
  lemma CompareTeamAFails(s: Services, uc: TeamUsecase, m: Entries, text: string, now: string)
    requires Parse(s, text).Ok? && Parse(s, text).value.topic == "compare" && |Parse(s, text).value.teams| >= 2
    requires StatOf(uc, m, LeagueIDOf(Parse(s, text).value.league), Parse(s, text).value.teams[0]).Err?
    ensures ParseIntentResponse(s, uc, m, Some(text), now) == Response(StatusInternalServerError, ErrorText("Error while fetching data for team A"))
    ensures LookedUp(s, uc, m, Some(text)) == [Parse(s, text).value.teams[0]]
    ensures ParseIntentCalls(s, uc, m, Some(text), now) ==
      [ParseCall(text), StatisticsCall(LeagueIDOf(Parse(s, text).value.league), 2022, Parse(s, text).value.teams[0])]
  {
    var intent := Parse(s, text).value;
    var league := LeagueIDOf(intent.league);
    assert CompareLookups(uc, m, league, intent.teams) == [intent.teams[0]];
    StatisticsCallsPerName(league, [intent.teams[0]]);
    assert ParseIntentCalls(s, uc, m, Some(text), now) == [ParseCall(text)] + StatisticsCalls(league, [intent.teams[0]]);
  }

  /** When only team B's statistics fail the request ends with the distinct team B message. */
  lemma CompareTeamBFails(s: Services, uc: TeamUsecase, m: Entries, text: string, now: string)
    requires Parse(s, text).Ok? && Parse(s, text).value.topic == "compare" && |Parse(s, text).value.teams| >= 2
    requires StatOf(uc, m, LeagueIDOf(Parse(s, text).value.league), Parse(s, text).value.teams[0]).Ok?
    requires StatOf(uc, m, LeagueIDOf(Parse(s, text).value.league), Parse(s, text).value.teams[1]).Err?
    ensures ParseIntentResponse(s, uc, m, Some(text), now) == Response(StatusInternalServerError, ErrorText("Error while fetching data for team B"))
    ensures LookedUp(s, uc, m, Some(text)) == Parse(s, text).value.teams[..2]
  {
  }

  /** Both lookups succeeding give the comparison of the first two teams, whatever other teams the intent names. */
  lemma CompareBothFound(s: Services, uc: TeamUsecase, m: Entries, intent: Intent)
    requires intent.topic == "compare" && |intent.teams| >= 2
    requires StatOf(uc, m, LeagueIDOf(intent.league), intent.teams[0]).Ok?
    requires StatOf(uc, m, LeagueIDOf(intent.league), intent.teams[1]).Ok?
    ensures TopicOutcome(s, uc, m, intent) == Proceed(Comparison(
      StatOf(uc, m, LeagueIDOf(intent.league), intent.teams[0]).value,
      StatOf(uc, m, LeagueIDOf(intent.league), intent.teams[1]).value))
  {
  }

  /** A team without a cached ID fails the comparison before any statistics are read or fetched for it. */
  lemma CompareUnknownNameNoUpstream(uc: TeamUsecase, m: Entries, league: int, teams: seq<string>)
    requires |teams| >= 2 && GetIDOf(m, uc.repo.store.online, teams[0]).Err?
    ensures CompareOutcome(uc, m, league, teams).Halt?
    ensures ReadsFor(uc, m, CompareLookups(uc, m, league, teams)) == []
    ensures ApiCallsFor(uc, m, league, CompareLookups(uc, m, league, teams)) == []
    ensures SavesFor(uc, m, league, CompareLookups(uc, m, league, teams)) == []
  {
  }

  /**
   * The news topic never halts; its data is the in-order list of the generators
   * that succeeded, and a nil slice (JSON null) when all four failed.
   */
  lemma NewsTopicData(s: Services, uc: TeamUsecase, m: Entries, intent: Intent, n: News)
    requires intent.topic == "news"
    ensures TopicOutcome(s, uc, m, intent).Proceed? && TopicOutcome(s, uc, m, intent).data.NewsList?
    ensures n in TopicOutcome(s, uc, m, intent).data.items.Elems() <==> Ok(n) in NewsResults(s)
    ensures TopicOutcome(s, uc, m, intent).data.items.Nil? <==>
      forall k :: 0 <= k < |NewsResults(s)| ==> NewsResults(s)[k].Err?
  {
    var rs := NewsResults(s);
    SuccessesAreTheOks(rs, n);
    SuccessesAllOrNone(rs);
    if exists k :: 0 <= k < |rs| && rs[k].Ok? {
      var k :| 0 <= k < |rs| && rs[k].Ok?;
      SuccessesAreTheOks(rs, rs[k].value);
    }
  }

  /** The fact topic passes the team list through; an unknown topic is a 400 with nothing looked up. */
  lemma FactAndUnknownTopics(s: Services, uc: TeamUsecase, m: Entries, intent: Intent)
    ensures intent.topic == "fact" ==>
      TopicOutcome(s, uc, m, intent) == Proceed(TeamNames(intent.teams)) && TopicCalls(s, uc, m, intent) == []
    ensures intent.topic !in {"fixture", "table", "news", "compare", "fact"} ==>
      TopicOutcome(s, uc, m, intent) == Halt(Response(StatusBadRequest, ErrorText("unsupported topic"))) &&
      TopicCalls(s, uc, m, intent) == []
  {
  }

  // GET /compare

  /** The validation of GET /compare: all three parameters present and a known league. */
  function CompareLeague(teamA: string, teamB: string, league: string): (r: Result<int>)
    ensures r.Err? <==> teamA == "" || teamB == "" || league == "" || (league != "ETH" && league != "EPL")
    ensures r.Ok? ==> r.value == LeagueIDOf(league) && r.value != 0
    ensures r.Err? ==> r.error.InvalidInput?
  {
    if teamA == "" || teamB == "" || league == "" then Err(InvalidInput("two teams are needed"))
    else if league == "ETH" then Ok(363)
    else if league == "EPL" then Ok(39)
    else Err(InvalidInput("unsupported league"))
  }

  /** The response of GET /compare; an ID that does not parse is looked up as 0. */
  function HandleCompareResponse(uc: TeamUsecase, teamA: string, teamB: string, league: string): Response<Body> {
    match CompareLeague(teamA, teamB, league)
    case Err(e) => Response(StatusBadRequest, ErrorText(e.msg))
    case Ok(id) =>
      match StatisticsByIDOf(uc.extras, uc.api, id, DefaultSeason, AtoiOrZero(teamA))
      case Err(_) => Response(StatusInternalServerError, ErrorText("Error while fetching data for team A"))
      case Ok(a) =>
        match StatisticsByIDOf(uc.extras, uc.api, id, DefaultSeason, AtoiOrZero(teamB))
        case Err(_) => Response(StatusInternalServerError, ErrorText("Error while fetching data for team B"))
        case Ok(b) => Response(StatusOK, ComparisonBody(a, b))
  }

  /** The statistics lookups of GET /compare: none on a validation error, team B only after team A succeeded. */
  function HandleCompareCalls(uc: TeamUsecase, teamA: string, teamB: string, league: string): seq<Call> {
    match CompareLeague(teamA, teamB, league)
    case Err(_) => []
    case Ok(id) =>
      [StatsByIDCall(id, DefaultSeason, AtoiOrZero(teamA))] +
      if StatisticsByIDOf(uc.extras, uc.api, id, DefaultSeason, AtoiOrZero(teamA)).Err? then []
      else [StatsByIDCall(id, DefaultSeason, AtoiOrZero(teamB))]
  }

  /** A missing parameter or an unknown league is a 400 before any statistics lookup. */
  lemma HandleCompareValidatesFirst(uc: TeamUsecase, teamA: string, teamB: string, league: string)
    ensures (teamA == "" || teamB == "" || league == "") ==>
      HandleCompareResponse(uc, teamA, teamB, league) == Response(StatusBadRequest, ErrorText("two teams are needed"))
    ensures teamA != "" && teamB != "" && league != "" && league != "ETH" && league != "EPL" ==>
      HandleCompareResponse(uc, teamA, teamB, league) == Response(StatusBadRequest, ErrorText("unsupported league"))
    ensures HandleCompareResponse(uc, teamA, teamB, league).status == StatusBadRequest <==>
      HandleCompareCalls(uc, teamA, teamB, league) == []
  {
  }

  /**
   * Comparing by name through POST /intent and by ID through GET /compare give
   * the same two statistics when each name is cached with its team's ID.
   */
  lemma IntentCompareMatchesHandleCompare(s: Services, uc: TeamUsecase, m: Entries, intent: Intent,
                                          a: int, b: int, ttlA: nat, ttlB: nat)
    requires intent.topic == "compare" && |intent.teams| >= 2 && intent.teams[0] != intent.teams[1]
    requires intent.league == "ETH" || intent.league == "EPL"
    requires InRange(a) && InRange(b) && uc.repo.store.online
    ensures var m' := m[intent.teams[0] := Blob(Json.Text(Itoa(a)), ttlA)][intent.teams[1] := Blob(Json.Text(Itoa(b)), ttlB)];
      var resp := HandleCompareResponse(uc, Itoa(a), Itoa(b), intent.league);
      (TopicOutcome(s, uc, m', intent).Proceed? <==> resp.status == StatusOK) &&
      (resp.status == StatusOK ==> TopicOutcome(s, uc, m', intent).data == Comparison(resp.body.teamA, resp.body.teamB))
  {
    var league := LeagueIDOf(intent.league);
    var m1 := m[intent.teams[0] := Blob(Json.Text(Itoa(a)), ttlA)];
    var m' := m1[intent.teams[1] := Blob(Json.Text(Itoa(b)), ttlB)];
    AtoiItoa(a);
    AtoiItoa(b);
    assert Itoa(a) != "" && Itoa(b) != "";
    GetIDOfCachedNumber(m1, intent.teams[1], b, ttlB);
    assert m'[intent.teams[0]] == m1[intent.teams[0]];
    assert GetIDOf(m', true, intent.teams[0]) == GetIDOf(m1, true, intent.teams[0]);
    GetIDOfCachedNumber(m, intent.teams[0], a, ttlA);
    assert StatOf(uc, m', league, intent.teams[0]) == StatisticsByIDOf(uc.extras, uc.api, league, DefaultSeason, a);
    assert StatOf(uc, m', league, intent.teams[1]) == StatisticsByIDOf(uc.extras, uc.api, league, DefaultSeason, b);
  }

  class IntentController {
    const services: Services
    const uc: TeamUsecase
    var calls: seq<Call>

    constructor (services: Services, uc: TeamUsecase)
      ensures this.services == services && this.uc == uc && calls == []
    {
      this.services := services;
      this.uc := uc;
      calls := [];
    }

    /**
     * POST /intent; input None is a body that does not bind and `now` is the
     * freshness timestamp. The team store is only read.
     */
    method ParseIntent(input: Option<string>, now: string) returns (resp: Response<Body>)
      modifies this, uc.extras, uc.api
      ensures resp == ParseIntentResponse(services, uc, uc.repo.store.entries, input, now)
      ensures calls == old(calls) + ParseIntentCalls(services, uc, uc.repo.store.entries, input, now)
      ensures var m, names, league := uc.repo.store.entries, LookedUp(services, uc, uc.repo.store.entries, input), LookedUpLeague(services, input);
        uc.extras.statsReads == old(uc.extras.statsReads) + ReadsFor(uc, m, names) &&
        uc.api.calls == old(uc.api.calls) + ApiCallsFor(uc, m, league, names) &&
        uc.extras.statsSaves == old(uc.extras.statsSaves) + SavesFor(uc, m, league, names)
      ensures uc.extras.idCache == old(uc.extras.idCache)
    {
      if input.None? {
        return Response(StatusBadRequest, ErrorText("invalid request body"));
      }
      ghost var c0 := calls;
      calls := calls + [ParseCall(input.value)];
      var parsed := Parse(services, input.value);
      if parsed.Err? {
        assert LookedUp(services, uc, uc.repo.store.entries, input) == [];
        assert ParseIntentCalls(services, uc, uc.repo.store.entries, input, now) == [ParseCall(input.value)];
        if parsed.error.InvalidInput? {
          return Response(StatusBadRequest, ErrorOf(parsed.error));
        }
        return Response(StatusInternalServerError, ErrorText("internal server error"));
      }
      ghost var m := uc.repo.store.entries;
      assert LookedUp(services, uc, m, input) == TopicLookups(uc, m, parsed.value);
      assert LookedUpLeague(services, input) == LeagueIDOf(parsed.value.league);
      ghost var tail := TopicCalls(services, uc, m, parsed.value) + ComposeCalls(parsed.value, TopicOutcome(services, uc, m, parsed.value), now);
      assert ParseIntentCalls(services, uc, m, input, now) == [ParseCall(input.value)] + tail;
      resp := AnswerIntent(parsed.value, now);
      ConcatAssoc(c0, [ParseCall(input.value)], tail);
    }

    /** ParseIntent after parsing: the league switch, the topic switch and the composer. */
    method AnswerIntent(intent: Intent, now: string) returns (resp: Response<Body>)
      modifies this, uc.extras, uc.api
      ensures resp == Respond(services, intent, TopicOutcome(services, uc, uc.repo.store.entries, intent), now)
      ensures calls == old(calls) + TopicCalls(services, uc, uc.repo.store.entries, intent)
                     + ComposeCalls(intent, TopicOutcome(services, uc, uc.repo.store.entries, intent), now)
      ensures var m, names, league := uc.repo.store.entries, TopicLookups(uc, uc.repo.store.entries, intent), LeagueIDOf(intent.league);
        uc.extras.statsReads == old(uc.extras.statsReads) + ReadsFor(uc, m, names) &&
        uc.api.calls == old(uc.api.calls) + ApiCallsFor(uc, m, league, names) &&
        uc.extras.statsSaves == old(uc.extras.statsSaves) + SavesFor(uc, m, league, names)
      ensures uc.extras.idCache == old(uc.extras.idCache)
    {
      var leagueID := 0;
      if intent.league == "ETH" {
        leagueID := 363;
      } else if intent.league == "EPL" {
        leagueID := 39;
      }
      var d := RunTopic(intent, leagueID);
      if d.Halt? {
        return d.resp;
      }
      var data := d.data;
      var ctx := AnswerContext(intent.topic, intent.language, "api", now, map["data" := data]);
      calls := calls + [ComposeCall(ctx)];
      var answer := Compose(services, ctx);
      if answer.Err? {
        return Response(StatusInternalServerError, ErrorText("failed to compose answer"));
      }
      resp := Response(StatusOK, AnswerBody(answer.value));
    }

    /** The topic switch of ParseIntent, which sets `data` or ends the request. */
    method RunTopic(intent: Intent, leagueID: int) returns (d: Dispatch)
      requires leagueID == LeagueIDOf(intent.league)
      modifies this, uc.extras, uc.api
      ensures d == TopicOutcome(services, uc, uc.repo.store.entries, intent)
      ensures calls == old(calls) + TopicCalls(services, uc, uc.repo.store.entries, intent)
      ensures var m, names := uc.repo.store.entries,
                (if intent.topic == "compare" then CompareLookups(uc, uc.repo.store.entries, leagueID, intent.teams) else []);
        uc.extras.statsReads == old(uc.extras.statsReads) + ReadsFor(uc, m, names) &&
        uc.api.calls == old(uc.api.calls) + ApiCallsFor(uc, m, leagueID, names) &&
        uc.extras.statsSaves == old(uc.extras.statsSaves) + SavesFor(uc, m, leagueID, names)
      ensures uc.extras.idCache == old(uc.extras.idCache)
    {
      var data: Data := NoData;
      if intent.topic == "fixture" {
        var query := RoundQuery(intent.league, 2022, "1", "", "");
        calls := calls + [RoundCall(query)];
        var answer := ByRound(services, query);
        if answer.Ok? {
          data := Rounds([answer.value]);
        }
      } else if intent.topic == "table" {
        calls := calls + [StandingsCall(leagueID, DefaultSeason)];
        var table := StandingsOf(services, leagueID, DefaultSeason);
        if table.Err? {
          return Halt(Response(StatusInternalServerError, ErrorText("Error while fetching standings")));
        }
        data := Table(table.value);
      } else if intent.topic == "news" {
        var items := GatherNews();
        data := NewsList(items);
      } else if intent.topic == "compare" {
        d := CompareTeams(leagueID, intent.teams);
        return;
      } else if intent.topic == "fact" {
        data := TeamNames(intent.teams);
      } else {
        return Halt(Response(StatusBadRequest, ErrorText("unsupported topic")));
      }

      d := Proceed(data);
    }

    /** The news topic: the four generators in turn, each success appended. */
    method GatherNews() returns (items: GoSlice<News>)
      modifies this
      ensures items == AppendTo(Nil, Successes(NewsResults(services)))
      ensures calls == old(calls) + [NewsCall(0), NewsCall(1), NewsCall(2), NewsCall(3)]
    {
      var results := NewsResults(services);
      items := Nil;
      for g := 0 to 4
        invariant items == AppendTo(Nil, Successes(results[..g]))
        invariant calls == old(calls) + seq(g, k requires 0 <= k < g => NewsCall(k))
      {
        calls := calls + [NewsCall(g)];
        assert results[..g + 1][..g] == results[..g];
        if results[g].Ok? {
          items := AppendTo(items, [results[g].value]);
        }
      }
      assert results[..4] == results;
      assert seq(4, k requires 0 <= k < 4 => NewsCall(k)) == [NewsCall(0), NewsCall(1), NewsCall(2), NewsCall(3)];
    }

    /** The compare topic: Statistics for team A, then for team B, each failure ending the request. */
    method CompareTeams(leagueID: int, teams: seq<string>) returns (d: Dispatch)
      modifies this, uc.extras, uc.api
      ensures d == CompareOutcome(uc, uc.repo.store.entries, leagueID, teams)
      ensures var names := CompareLookups(uc, uc.repo.store.entries, leagueID, teams);
        calls == old(calls) + StatisticsCalls(leagueID, names) &&
        uc.extras.statsReads == old(uc.extras.statsReads) + ReadsFor(uc, uc.repo.store.entries, names) &&
        uc.api.calls == old(uc.api.calls) + ApiCallsFor(uc, uc.repo.store.entries, leagueID, names) &&
        uc.extras.statsSaves == old(uc.extras.statsSaves) + SavesFor(uc, uc.repo.store.entries, leagueID, names)
      ensures uc.extras.idCache == old(uc.extras.idCache)
    {
      if |teams| < 2 {
        return Halt(Response(StatusBadRequest, ErrorText("two teams are required for comparison")));
      }
      ghost var m := uc.repo.store.entries;
      ghost var c0, r0, a0, s0 := calls, uc.extras.statsReads, uc.api.calls, uc.extras.statsSaves;
      LogsOfOneOrTwo(uc, m, leagueID, teams[0], teams[1]);
      calls := calls + [StatisticsCall(leagueID, DefaultSeason, teams[0])];
      var team1 := uc.Statistics(leagueID, DefaultSeason, teams[0]);
      assert uc.extras.statsReads == r0 + NameReads(uc, m, teams[0]);
      assert uc.api.calls == a0 + NameApiCalls(uc, m, leagueID, teams[0]);
      assert uc.extras.statsSaves == s0 + NameSaves(uc, m, leagueID, teams[0]);
      if team1.Err? {
        return Halt(Response(StatusInternalServerError, ErrorText("Error while fetching data for team A")));
      }
      calls := calls + [StatisticsCall(leagueID, DefaultSeason, teams[1])];
      var team2 := uc.Statistics(leagueID, DefaultSeason, teams[1]);
      assert uc.extras.statsReads == r0 + NameReads(uc, m, teams[0]) + NameReads(uc, m, teams[1]);
      assert uc.api.calls == a0 + NameApiCalls(uc, m, leagueID, teams[0]) + NameApiCalls(uc, m, leagueID, teams[1]);
      assert uc.extras.statsSaves == s0 + NameSaves(uc, m, leagueID, teams[0]) + NameSaves(uc, m, leagueID, teams[1]);
      ConcatAssoc(c0, [StatisticsCall(leagueID, DefaultSeason, teams[0])], [StatisticsCall(leagueID, DefaultSeason, teams[1])]);
      ConcatAssoc(r0, NameReads(uc, m, teams[0]), NameReads(uc, m, teams[1]));
      ConcatAssoc(a0, NameApiCalls(uc, m, leagueID, teams[0]), NameApiCalls(uc, m, leagueID, teams[1]));
      ConcatAssoc(s0, NameSaves(uc, m, leagueID, teams[0]), NameSaves(uc, m, leagueID, teams[1]));
      if team2.Err? {
        return Halt(Response(StatusInternalServerError, ErrorText("Error while fetching data for team B")));
      }
      d := Proceed(Comparison(team1.value, team2.value));
    }

    /** GET /compare: validation first, then StatisticsByID for team A and then team B. */
    method HandleCompare(teamA: string, teamB: string, league: string) returns (resp: Response<Body>)
      modifies this, uc.extras, uc.api
      ensures resp == HandleCompareResponse(uc, teamA, teamB, league)
      ensures calls == old(calls) + HandleCompareCalls(uc, teamA, teamB, league)
      ensures CompareLeague(teamA, teamB, league).Err? ==>
        uc.extras.statsReads == old(uc.extras.statsReads) && uc.api.calls == old(uc.api.calls) &&
        uc.extras.statsSaves == old(uc.extras.statsSaves)
      ensures CompareLeague(teamA, teamB, league).Ok? ==>
        var id, a, b := CompareLeague(teamA, teamB, league).value, AtoiOrZero(teamA), AtoiOrZero(teamB);
        var aFailed := StatisticsByIDOf(uc.extras, uc.api, id, DefaultSeason, a).Err?;
        uc.extras.statsReads == old(uc.extras.statsReads) + [a] + (if aFailed then [] else [b]) &&
        uc.api.calls == old(uc.api.calls) + StatsApiCalls(uc.extras, id, DefaultSeason, a)
          + (if aFailed then [] else StatsApiCalls(uc.extras, id, DefaultSeason, b)) &&
        uc.extras.statsSaves == old(uc.extras.statsSaves) + StatsSaves(uc.extras, uc.api, id, DefaultSeason, a)
          + (if aFailed then [] else StatsSaves(uc.extras, uc.api, id, DefaultSeason, b))
      ensures uc.extras.idCache == old(uc.extras.idCache)
    {
      if teamA == "" || teamB == "" || league == "" {
        return Response(StatusBadRequest, ErrorText("two teams are needed"));
      }
      var a := AtoiOrZero(teamA);
      var b := AtoiOrZero(teamB);
      var leagueID := 0;
      if league == "ETH" {
        leagueID := 363;
      } else if league == "EPL" {
        leagueID := 39;
      } else {
        return Response(StatusBadRequest, ErrorText("unsupported league"));
      }
      calls := calls + [StatsByIDCall(leagueID, DefaultSeason, a)];
      var team1 := uc.StatisticsByID(leagueID, DefaultSeason, a);
      if team1.Err? {
        return Response(StatusInternalServerError, ErrorText("Error while fetching data for team A"));
      }
      calls := calls + [StatsByIDCall(leagueID, DefaultSeason, b)];
      var team2 := uc.StatisticsByID(leagueID, DefaultSeason, b);
      if team2.Err? {
        return Response(StatusInternalServerError, ErrorText("Error while fetching data for team B"));
      }
      resp := Response(StatusOK, ComparisonBody(team1.value, team2.value));
    }
  }
}
