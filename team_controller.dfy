/**
 * The team HTTP handlers: each parses its request, calls the team use case and
 * writes one status code and one JSON body. A body is kept as the value the
 * handler hands to gin; its JSON rendering is not modelled.
 */
module TeamControllers {
  import opened Domain
  import opened Numeric
  import opened KeyValue
  import opened Keys
  import opened TeamRepository
  import opened Upstream
  import opened TeamUsecases
  import opened Http

  /** The gin.H bodies the team handlers write. */
  datatype Body =
    | ErrorText(msg: string)
    | ErrorValue(err: Error)
    | TeamPayload(team: Team)
    | Message(msg: string)
    | CacheFailed(league: int, season: int, cause: Error)
    | CacheDone(msg: string, leagues: seq<int>, seasons: seq<int>)

  // GetTeam

  /** The response of GET /teams/:id, given the store and the API before the request. */
  function GetTeamResponse(m: Entries, online: bool, api: SportsApi, idStr: string): Response<Body> {
    match Atoi(idStr)
    case None => Response(StatusBadRequest, ErrorText("invalid team ID format"))
    case Some(n) =>
      match TeamByIDOf(m, online, api, n)
      case Err(_) => Response(StatusNotFound, ErrorText("team not found"))
      case Ok(t) => Response(StatusOK, TeamPayload(t))
  }

  /** A malformed ID is a 400, a lookup failure a 404, and a 200 carries the team GetTeamByID returned. */
  lemma GetTeamStatuses(m: Entries, online: bool, api: SportsApi, idStr: string)
    ensures var resp := GetTeamResponse(m, online, api, idStr);
      (resp.status == StatusBadRequest <==> Atoi(idStr).None?) &&
      (resp.status == StatusNotFound <==> Atoi(idStr).Some? && TeamByIDOf(m, online, api, Atoi(idStr).value).Err?) &&
      (resp.status == StatusOK <==> Atoi(idStr).Some? && TeamByIDOf(m, online, api, Atoi(idStr).value).Ok?) &&
      (resp.status == StatusOK ==> resp.body == TeamPayload(TeamByIDOf(m, online, api, Atoi(idStr).value).value))
  {
  }

  /** A team the handler had to look up upstream is answered under the canonical spelling of the requested ID. */
  lemma GetTeamUpstreamAnswersAskedID(m: Entries, online: bool, api: SportsApi, idStr: string)
    requires Atoi(idStr).Some? && GetTeamByIDOf(m, online, Atoi(idStr).value).Err?
    requires GetTeamResponse(m, online, api, idStr).status == StatusOK
    ensures GetTeamResponse(m, online, api, idStr).body.team.id == Itoa(Atoi(idStr).value)
  {
    TeamByIDUpstreamHasID(m, online, api, Atoi(idStr).value);
  }

  /** strconv.Atoi accepts leading zeros, so "007" names the same team as "7". */
  lemma GetTeamIgnoresLeadingZeros(m: Entries, online: bool, api: SportsApi)
    ensures GetTeamResponse(m, online, api, "007") == GetTeamResponse(m, online, api, "7")
  {
    AtoiAcceptsLeadingZeros();
    AtoiItoa(7);
    assert Itoa(7) == "7";
  }

  /** A team added through POST /teams comes back from GET /teams/:id, but without its ID field. */
  lemma AddThenGetTeamLosesID(m: Entries, online: bool, api: SportsApi, t: Team, n: int)
    requires InRange(n) && t.id == Itoa(n)
    requires AddResult(m, online, t).Pass?
    ensures GetTeamResponse(AddState(m, online, t), online, api, t.id) == Response(StatusOK, TeamPayload(t.(id := "")))
  {
    AtoiItoa(n);
    AddThenGetByIDLosesID(m, online, t, n);
  }

  // AddTeam

  /** The response of POST /teams; None stands for a body that does not bind to a team. */
  function AddTeamResponse(m: Entries, online: bool, input: Option<Team>): Response<Body> {
    match input
    case None => Response(StatusBadRequest, ErrorText("invalid input format"))
    case Some(t) =>
      match AddResult(m, online, t)
      case Fail(e) => Response(StatusInternalServerError, ErrorValue(e))
      case Pass => Response(StatusOK, Message("team added successfully"))
  }

  /** An existing team is refused with a 500 carrying DuplicateFound; a 200 means the team was stored. */
  lemma AddTeamOutcomes(m: Entries, online: bool, t: Team)
    ensures online && TeamKey(t.id) in m ==>
      AddTeamResponse(m, online, Some(t)) == Response(StatusInternalServerError, ErrorValue(DuplicateFound))
    ensures AddTeamResponse(m, online, Some(t)).status == StatusOK <==> online && TeamKey(t.id) !in m
    ensures !online ==> AddTeamResponse(m, online, Some(t)) == Response(StatusInternalServerError, ErrorValue(InternalServer))
  {
  }

  // CacheTeams: FetchAndCacheTeams over the league and season pairs, stopping at the first failure

  /** What FetchAndCacheTeams returns for one pair. */
  function FetchOutcome(api: SportsApi, online: bool, p: (int, int)): Outcome {
    match api.TeamsAnswer(p.0, p.1)
    case Err(e) => Fail(e)
    case Ok(_) => SaveAllResult(online)
  }

  /** The name and ID pairs FetchAndCacheTeams hands to CacheTeamID for one pair. */
  function IdStep(api: SportsApi, p: (int, int)): seq<(string, string)> {
    match api.TeamsAnswer(p.0, p.1)
    case Err(_) => []
    case Ok(resps) => IdPairs(CatalogOf(resps, p.0))
  }

  /** The first pair whose seeding fails, with its error. */
  function FirstFailure(api: SportsApi, online: bool, ps: seq<(int, int)>): Option<((int, int), Error)>
    decreases |ps|
  {
    if ps == [] then None
    else if FetchOutcome(api, online, ps[0]).Fail? then Some((ps[0], FetchOutcome(api, online, ps[0]).error))
    else FirstFailure(api, online, ps[1..])
  }

  /** The store after seeding: every pair before the first failure has its catalog saved. */
  function SeedState(m: Entries, online: bool, api: SportsApi, ps: seq<(int, int)>): Entries
    decreases |ps|
  {
    if ps == [] || FetchOutcome(api, online, ps[0]).Fail? then m
    else SeedState(SearchStep(m, online, api, ps[0]), online, api, ps[1..])
  }

  function SeedWrites(online: bool, api: SportsApi, ps: seq<(int, int)>): seq<Write>
    decreases |ps|
  {
    if ps == [] then []
    else StepWrites(online, api, ps[0]) + (if FetchOutcome(api, online, ps[0]).Fail? then [] else SeedWrites(online, api, ps[1..]))
  }

  function SeedCalls(api: SportsApi, online: bool, ps: seq<(int, int)>): seq<ApiCall>
    decreases |ps|
  {
    if ps == [] then []
    else [TeamsCall(ps[0].0, ps[0].1)] + (if FetchOutcome(api, online, ps[0]).Fail? then [] else SeedCalls(api, online, ps[1..]))
  }

  function SeedIds(api: SportsApi, online: bool, ps: seq<(int, int)>): seq<(string, string)>
    decreases |ps|
  {
    if ps == [] then []
    else IdStep(api, ps[0]) + (if FetchOutcome(api, online, ps[0]).Fail? then [] else SeedIds(api, online, ps[1..]))
  }

  /** The response of POST /teams/cache. */
  function CacheTeamsResponse(api: SportsApi, online: bool): Response<Body> {
    match FirstFailure(api, online, Pairs)
    case Some((p, e)) => Response(StatusInternalServerError, CacheFailed(p.0, p.1, e))
    case None => Response(StatusOK, CacheDone("Teams cached successfully for both leagues", Leagues, Seasons))
  }

  /** Seeding reports no failure exactly when every pair passes, and otherwise the first pair that fails. */
  lemma {:induction false} FirstFailureIsFirst(api: SportsApi, online: bool, ps: seq<(int, int)>)
    ensures FirstFailure(api, online, ps).None? <==> forall i :: 0 <= i < |ps| ==> FetchOutcome(api, online, ps[i]).Pass?
    ensures FirstFailure(api, online, ps).Some? ==>
      exists k :: 0 <= k < |ps| && ps[k] == FirstFailure(api, online, ps).value.0 &&
                  FetchOutcome(api, online, ps[k]) == Fail(FirstFailure(api, online, ps).value.1) &&
                  forall j :: 0 <= j < k ==> FetchOutcome(api, online, ps[j]).Pass?
    decreases |ps|
  {
    if ps != [] {
      if FetchOutcome(api, online, ps[0]).Fail? {
        assert FetchOutcome(api, online, ps[0]) == Fail(FirstFailure(api, online, ps).value.1);
      } else {
        FirstFailureIsFirst(api, online, ps[1..]);
        if FirstFailure(api, online, ps[1..]).None? {
          PassShift(api, online, ps);
        } else {
          var tail := ps[1..];
          var f := FirstFailure(api, online, tail).value;
          var k :| 0 <= k < |tail| && tail[k] == f.0 && FetchOutcome(api, online, tail[k]) == Fail(f.1) &&
                   forall j :: 0 <= j < k ==> FetchOutcome(api, online, tail[j]).Pass?;
          FailShift(api, online, ps, k);
        }
      }
    }
  }

  /** Every pair of ps passes when ps[0] does and every pair of ps[1..] does. */
  lemma PassShift(api: SportsApi, online: bool, ps: seq<(int, int)>)
    requires |ps| > 0 && FetchOutcome(api, online, ps[0]).Pass?
    requires forall i :: 0 <= i < |ps[1..]| ==> FetchOutcome(api, online, ps[1..][i]).Pass?
    ensures forall i :: 0 <= i < |ps| ==> FetchOutcome(api, online, ps[i]).Pass?
  {
    forall i | 0 < i < |ps|
      ensures FetchOutcome(api, online, ps[i]).Pass?
    {
      assert ps[i] == ps[1..][i - 1];
    }
  }

  /** The first failure in ps[1..], at k, is the first failure in ps, at k + 1, when ps[0] passes. */
  lemma FailShift(api: SportsApi, online: bool, ps: seq<(int, int)>, k: nat)
    requires |ps| > 0 && FetchOutcome(api, online, ps[0]).Pass?
    requires FirstFailure(api, online, ps[1..]).Some?
    requires k < |ps[1..]| && ps[1..][k] == FirstFailure(api, online, ps[1..]).value.0
    requires FetchOutcome(api, online, ps[1..][k]) == Fail(FirstFailure(api, online, ps[1..]).value.1)
    requires forall j :: 0 <= j < k ==> FetchOutcome(api, online, ps[1..][j]).Pass?
    ensures k + 1 < |ps| && ps[k + 1] == FirstFailure(api, online, ps).value.0
    ensures FetchOutcome(api, online, ps[k + 1]) == Fail(FirstFailure(api, online, ps).value.1)
    ensures forall j :: 0 <= j < k + 1 ==> FetchOutcome(api, online, ps[j]).Pass?
  {
    var tail := ps[1..];
    assert FirstFailure(api, online, ps) == FirstFailure(api, online, tail);
    assert ps[k + 1] == tail[k];
    forall j | 0 < j < k + 1
      ensures FetchOutcome(api, online, ps[j]).Pass?
    {
      assert ps[j] == tail[j - 1];
    }
  }

  /** Seeding asks the API about the pairs in order, each at most once, and about all of them when none fails. */
  lemma {:induction false} SeedCallsFollowPairs(api: SportsApi, online: bool, ps: seq<(int, int)>)
    ensures |SeedCalls(api, online, ps)| <= |ps|
    ensures forall i :: 0 <= i < |SeedCalls(api, online, ps)| ==> SeedCalls(api, online, ps)[i] == TeamsCall(ps[i].0, ps[i].1)
    ensures FirstFailure(api, online, ps).None? ==> |SeedCalls(api, online, ps)| == |ps|
    decreases |ps|
  {
    if ps != [] && FetchOutcome(api, online, ps[0]).Pass? {
      SeedCallsFollowPairs(api, online, ps[1..]);
      SeedCallsCons(api, online, ps);
    }
  }

  /** The inductive step of SeedCallsFollowPairs. */
  lemma SeedCallsCons(api: SportsApi, online: bool, ps: seq<(int, int)>)
    requires ps != [] && FetchOutcome(api, online, ps[0]).Pass?
    requires |SeedCalls(api, online, ps[1..])| <= |ps[1..]|
    requires forall i :: 0 <= i < |SeedCalls(api, online, ps[1..])| ==>
      SeedCalls(api, online, ps[1..])[i] == TeamsCall(ps[1..][i].0, ps[1..][i].1)
    requires FirstFailure(api, online, ps[1..]).None? ==> |SeedCalls(api, online, ps[1..])| == |ps[1..]|
    ensures |SeedCalls(api, online, ps)| <= |ps|
    ensures forall i :: 0 <= i < |SeedCalls(api, online, ps)| ==> SeedCalls(api, online, ps)[i] == TeamsCall(ps[i].0, ps[i].1)
    ensures FirstFailure(api, online, ps).None? ==> |SeedCalls(api, online, ps)| == |ps|
  {
    var tail := ps[1..];
    var rest := SeedCalls(api, online, tail);
    var calls := SeedCalls(api, online, ps);
    assert calls == [TeamsCall(ps[0].0, ps[0].1)] + rest;
    forall i | 0 <= i < |calls|
      ensures calls[i] == TeamsCall(ps[i].0, ps[i].1)
    {
      if i > 0 {
        assert calls[i] == rest[i - 1] && tail[i - 1] == ps[i];
      }
    }
    assert FirstFailure(api, online, ps) == FirstFailure(api, online, tail);
  }

  /** A failing seeding's last API call is about the pair it reports. */
  lemma {:induction false} SeedStopsAtFailure(api: SportsApi, online: bool, ps: seq<(int, int)>)
    requires FirstFailure(api, online, ps).Some?
    ensures 1 <= |SeedCalls(api, online, ps)| <= |ps|
    ensures ps[|SeedCalls(api, online, ps)| - 1] == FirstFailure(api, online, ps).value.0
    decreases |ps|
  {
    if FetchOutcome(api, online, ps[0]).Fail? {
      assert SeedCalls(api, online, ps) == [TeamsCall(ps[0].0, ps[0].1)];
    } else {
      assert FirstFailure(api, online, ps) == FirstFailure(api, online, ps[1..]);
      SeedStopsAtFailure(api, online, ps[1..]);
      SeedStopsCons(api, online, ps);
    }
  }

  /** The inductive step of SeedStopsAtFailure. */
  lemma SeedStopsCons(api: SportsApi, online: bool, ps: seq<(int, int)>)
    requires ps != [] && FetchOutcome(api, online, ps[0]).Pass? && FirstFailure(api, online, ps[1..]).Some?
    requires 1 <= |SeedCalls(api, online, ps[1..])| <= |ps[1..]|
    requires ps[1..][|SeedCalls(api, online, ps[1..])| - 1] == FirstFailure(api, online, ps[1..]).value.0
    ensures 1 <= |SeedCalls(api, online, ps)| <= |ps|
    ensures ps[|SeedCalls(api, online, ps)| - 1] == FirstFailure(api, online, ps).value.0
  {
    var rest := SeedCalls(api, online, ps[1..]);
    assert SeedCalls(api, online, ps) == [TeamsCall(ps[0].0, ps[0].1)] + rest;
    assert ps[1..][|rest| - 1] == ps[|rest|];
    assert FirstFailure(api, online, ps) == FirstFailure(api, online, ps[1..]);
  }

  /** With the store down, seeding stops after one API call, reports the first pair and changes nothing. */
  lemma OfflineSeedingStopsAtFirstPair(m: Entries, api: SportsApi)
    ensures CacheTeamsResponse(api, false).status == StatusInternalServerError
    ensures CacheTeamsResponse(api, false).body.league == 363 && CacheTeamsResponse(api, false).body.season == 2021
    ensures SeedCalls(api, false, Pairs) == [TeamsCall(363, 2021)]
    ensures SeedState(m, false, api, Pairs) == m
  {
    assert FetchOutcome(api, false, Pairs[0]).Fail?;
  }

  /** After a seeding where every pair passes, the catalog of the last pair is what GetAllTeams reads back. */
  lemma {:induction false} SeedCachesLastCatalog(m: Entries, api: SportsApi, ps: seq<(int, int)>)
    requires ps != [] && forall i :: 0 <= i < |ps| ==> FetchOutcome(api, true, ps[i]).Pass?
    ensures api.TeamsAnswer(ps[|ps| - 1].0, ps[|ps| - 1].1).Ok?
    ensures GetAllTeamsOf(SeedState(m, true, api, ps), true, ps[|ps| - 1].0, ps[|ps| - 1].1) ==
      Ok(CatalogOf(api.TeamsAnswer(ps[|ps| - 1].0, ps[|ps| - 1].1).value, ps[|ps| - 1].0))
    decreases |ps|
  {
    if |ps| == 1 {
      SeedLastOfOne(m, api, ps);
    } else {
      PassTail(api, ps);
      SeedCachesLastCatalog(SearchStep(m, true, api, ps[0]), api, ps[1..]);
      SeedLastOfMore(m, api, ps);
    }
  }

  /** The base case of SeedCachesLastCatalog: a single passing pair. */
  lemma SeedLastOfOne(m: Entries, api: SportsApi, ps: seq<(int, int)>)
    requires |ps| == 1 && FetchOutcome(api, true, ps[0]).Pass?
    ensures api.TeamsAnswer(ps[|ps| - 1].0, ps[|ps| - 1].1).Ok?
    ensures GetAllTeamsOf(SeedState(m, true, api, ps), true, ps[|ps| - 1].0, ps[|ps| - 1].1) ==
      Ok(CatalogOf(api.TeamsAnswer(ps[|ps| - 1].0, ps[|ps| - 1].1).value, ps[|ps| - 1].0))
  {
    SeedStateCons(m, api, ps);
    SeedOnePair(m, api, ps[0]);
  }

  /** The inductive step of SeedCachesLastCatalog: what holds after the first step carries over. */
  lemma SeedLastOfMore(m: Entries, api: SportsApi, ps: seq<(int, int)>)
    requires |ps| > 1 && FetchOutcome(api, true, ps[0]).Pass?
    requires api.TeamsAnswer(ps[1..][|ps[1..]| - 1].0, ps[1..][|ps[1..]| - 1].1).Ok?
    requires GetAllTeamsOf(SeedState(SearchStep(m, true, api, ps[0]), true, api, ps[1..]), true, ps[1..][|ps[1..]| - 1].0, ps[1..][|ps[1..]| - 1].1) ==
      Ok(CatalogOf(api.TeamsAnswer(ps[1..][|ps[1..]| - 1].0, ps[1..][|ps[1..]| - 1].1).value, ps[1..][|ps[1..]| - 1].0))
    ensures api.TeamsAnswer(ps[|ps| - 1].0, ps[|ps| - 1].1).Ok?
    ensures GetAllTeamsOf(SeedState(m, true, api, ps), true, ps[|ps| - 1].0, ps[|ps| - 1].1) ==
      Ok(CatalogOf(api.TeamsAnswer(ps[|ps| - 1].0, ps[|ps| - 1].1).value, ps[|ps| - 1].0))
  {
    SeedStateCons(m, api, ps);
  }

  /** Seeding a list whose first pair passes is one SearchStep and then seeding the rest. */
  lemma SeedStateCons(m: Entries, api: SportsApi, ps: seq<(int, int)>)
    requires ps != [] && FetchOutcome(api, true, ps[0]).Pass?
    ensures SeedState(m, true, api, ps) == SeedState(SearchStep(m, true, api, ps[0]), true, api, ps[1..])
    ensures |ps| == 1 ==> SeedState(m, true, api, ps) == SearchStep(m, true, api, ps[0])
    ensures |ps| > 1 ==> ps[1..][|ps[1..]| - 1] == ps[|ps| - 1]
  {
  }

  lemma PassTail(api: SportsApi, ps: seq<(int, int)>)
    requires ps != [] && forall i :: 0 <= i < |ps| ==> FetchOutcome(api, true, ps[i]).Pass?
    ensures forall i :: 0 <= i < |ps[1..]| ==> FetchOutcome(api, true, ps[1..][i]).Pass?
  {
    assert forall i :: 0 <= i < |ps[1..]| ==> ps[1..][i] == ps[i + 1];
  }

  /** The base case of SeedCachesLastCatalog: one passing pair has its catalog saved. */
  lemma SeedOnePair(m: Entries, api: SportsApi, p: (int, int))
    requires FetchOutcome(api, true, p).Pass?
    ensures api.TeamsAnswer(p.0, p.1).Ok?
    ensures GetAllTeamsOf(SearchStep(m, true, api, p), true, p.0, p.1) == Ok(CatalogOf(api.TeamsAnswer(p.0, p.1).value, p.0))
  {
    SaveAllThenGetAll(m, p.0, p.1, CatalogOf(api.TeamsAnswer(p.0, p.1).value, p.0));
  }

  // Seeding from pair k on is one FetchAndCacheTeams then, unless that one failed, seeding from pair k + 1 on.

  lemma FirstFailureUnfold(api: SportsApi, online: bool, ps: seq<(int, int)>, k: nat)
    requires k < |ps|
    ensures FirstFailure(api, online, ps[k..]) ==
      if FetchOutcome(api, online, ps[k]).Fail? then Some((ps[k], FetchOutcome(api, online, ps[k]).error))
      else FirstFailure(api, online, ps[k + 1..])
  {
    var q := ps[k..];
    assert q[0] == ps[k] && q[1..] == ps[k + 1..];
  }

  lemma SeedStateUnfold(m: Entries, online: bool, api: SportsApi, ps: seq<(int, int)>, k: nat)
    requires k < |ps|
    ensures SeedState(m, online, api, ps[k..]) ==
      if FetchOutcome(api, online, ps[k]).Fail? then m
      else SeedState(SearchStep(m, online, api, ps[k]), online, api, ps[k + 1..])
  {
    var q := ps[k..];
    assert q[0] == ps[k] && q[1..] == ps[k + 1..];
  }

  lemma SeedWritesUnfold(online: bool, api: SportsApi, ps: seq<(int, int)>, k: nat)
    requires k < |ps|
    ensures SeedWrites(online, api, ps[k..]) == StepWrites(online, api, ps[k]) +
      if FetchOutcome(api, online, ps[k]).Fail? then [] else SeedWrites(online, api, ps[k + 1..])
  {
    var q := ps[k..];
    assert q[0] == ps[k] && q[1..] == ps[k + 1..];
  }

  lemma SeedCallsUnfold(api: SportsApi, online: bool, ps: seq<(int, int)>, k: nat)
    requires k < |ps|
    ensures SeedCalls(api, online, ps[k..]) == [TeamsCall(ps[k].0, ps[k].1)] +
      if FetchOutcome(api, online, ps[k]).Fail? then [] else SeedCalls(api, online, ps[k + 1..])
  {
    var q := ps[k..];
    assert q[0] == ps[k] && q[1..] == ps[k + 1..];
  }

  lemma SeedIdsUnfold(api: SportsApi, online: bool, ps: seq<(int, int)>, k: nat)
    requires k < |ps|
    ensures SeedIds(api, online, ps[k..]) == IdStep(api, ps[k]) +
      if FetchOutcome(api, online, ps[k]).Fail? then [] else SeedIds(api, online, ps[k + 1..])
  {
    var q := ps[k..];
    assert q[0] == ps[k] && q[1..] == ps[k + 1..];
  }

  class TeamController {
    const uc: TeamUsecase

    constructor (uc: TeamUsecase)
      ensures this.uc == uc
    {
      this.uc := uc;
    }

    /** GET /teams/:id. */
    method GetTeam(idStr: string) returns (resp: Response<Body>)
      modifies uc.repo.store, uc.api
      ensures resp == GetTeamResponse(old(uc.repo.store.entries), uc.repo.store.online, uc.api, idStr)
      ensures Atoi(idStr).None? ==>
        uc.repo.store.entries == old(uc.repo.store.entries) && uc.repo.store.log == old(uc.repo.store.log) &&
        uc.api.calls == old(uc.api.calls)
      ensures Atoi(idStr).Some? ==>
        var n := Atoi(idStr).value;
        uc.repo.store.entries == TeamByIDState(old(uc.repo.store.entries), uc.repo.store.online, uc.api, n) &&
        uc.repo.store.log == old(uc.repo.store.log) + TeamByIDWrites(old(uc.repo.store.entries), uc.repo.store.online, uc.api, n) &&
        uc.api.calls == old(uc.api.calls) + TeamByIDCalls(old(uc.repo.store.entries), uc.repo.store.online, uc.api, n)
    {
      var teamID := Atoi(idStr);
      if teamID.None? {
        return Response(StatusBadRequest, ErrorText("invalid team ID format"));
      }
      var team := uc.GetTeamByID(teamID.value);
      if team.Err? {
        return Response(StatusNotFound, ErrorText("team not found"));
      }
      resp := Response(StatusOK, TeamPayload(team.value));
    }

    /** POST /teams; input is None when the body does not bind to a team. */
    method AddTeam(input: Option<Team>) returns (resp: Response<Body>)
      modifies uc.repo.store
      ensures resp == AddTeamResponse(old(uc.repo.store.entries), uc.repo.store.online, input)
      ensures input.None? ==> uc.repo.store.entries == old(uc.repo.store.entries) && uc.repo.store.log == old(uc.repo.store.log)
      ensures input.Some? ==>
        uc.repo.store.entries == AddState(old(uc.repo.store.entries), uc.repo.store.online, input.value) &&
        uc.repo.store.log == old(uc.repo.store.log) + AddLog(old(uc.repo.store.entries), uc.repo.store.online, input.value)
    {
      if input.None? {
        return Response(StatusBadRequest, ErrorText("invalid input format"));
      }
      var r := uc.AddTeam(input.value);
      if r.Fail? {
        return Response(StatusInternalServerError, ErrorValue(r.error));
      }
      resp := Response(StatusOK, Message("team added successfully"));
    }

    /** POST /teams/cache: FetchAndCacheTeams for every league and season pair, stopping at the first failure. */
    method CacheTeams() returns (resp: Response<Body>)
      modifies uc.repo.store, uc.api, uc.extras
      ensures resp == CacheTeamsResponse(uc.api, uc.repo.store.online)
      ensures uc.repo.store.entries == SeedState(old(uc.repo.store.entries), uc.repo.store.online, uc.api, Pairs)
      ensures uc.repo.store.log == old(uc.repo.store.log) + SeedWrites(uc.repo.store.online, uc.api, Pairs)
      ensures uc.api.calls == old(uc.api.calls) + SeedCalls(uc.api, uc.repo.store.online, Pairs)
      ensures uc.extras.idCache == old(uc.extras.idCache) + SeedIds(uc.api, uc.repo.store.online, Pairs)
      ensures uc.extras.statsReads == old(uc.extras.statsReads) && uc.extras.statsSaves == old(uc.extras.statsSaves)
    {
      var failure := SeedAllLeagues();
      if failure.Some? {
        var (p, e) := failure.value;
        return Response(StatusInternalServerError, CacheFailed(p.0, p.1, e));
      }
      resp := Response(StatusOK, CacheDone("Teams cached successfully for both leagues", Leagues, Seasons));
    }

    /** The leagues loop of CacheTeams: seeds every pair in order and stops at the first failure. */
    method SeedAllLeagues() returns (failure: Option<((int, int), Error)>)
      modifies uc.repo.store, uc.api, uc.extras
      ensures failure == FirstFailure(uc.api, uc.repo.store.online, Pairs)
      ensures uc.repo.store.entries == SeedState(old(uc.repo.store.entries), uc.repo.store.online, uc.api, Pairs)
      ensures uc.repo.store.log == old(uc.repo.store.log) + SeedWrites(uc.repo.store.online, uc.api, Pairs)
      ensures uc.api.calls == old(uc.api.calls) + SeedCalls(uc.api, uc.repo.store.online, Pairs)
      ensures uc.extras.idCache == old(uc.extras.idCache) + SeedIds(uc.api, uc.repo.store.online, Pairs)
      ensures uc.extras.statsReads == old(uc.extras.statsReads) && uc.extras.statsSaves == old(uc.extras.statsSaves)
    {
      ghost var m0, l0, c0, i0 := uc.repo.store.entries, uc.repo.store.log, uc.api.calls, uc.extras.idCache;
      ghost var online := uc.repo.store.online;
      assert Pairs[3 * 0..] == Pairs;
      for li := 0 to |Leagues|
        invariant FirstFailure(uc.api, online, Pairs) == FirstFailure(uc.api, online, Pairs[3 * li..])
        invariant SeedState(m0, online, uc.api, Pairs) == SeedState(uc.repo.store.entries, online, uc.api, Pairs[3 * li..])
        invariant l0 + SeedWrites(online, uc.api, Pairs) == uc.repo.store.log + SeedWrites(online, uc.api, Pairs[3 * li..])
        invariant c0 + SeedCalls(uc.api, online, Pairs) == uc.api.calls + SeedCalls(uc.api, online, Pairs[3 * li..])
        invariant i0 + SeedIds(uc.api, online, Pairs) == uc.extras.idCache + SeedIds(uc.api, online, Pairs[3 * li..])
        invariant uc.extras.statsReads == old(uc.extras.statsReads) && uc.extras.statsSaves == old(uc.extras.statsSaves)
      {
        failure := SeedLeague(li);
        if failure.Some? {
          return;
        }
      }
      assert Pairs[3 * |Leagues|..] == [];
      failure := None;
    }

    /** The seasons loop of CacheTeams for one league. */
    method SeedLeague(li: nat) returns (failure: Option<((int, int), Error)>)
      requires li < |Leagues|
      modifies uc.repo.store, uc.api, uc.extras
      ensures failure.Some? ==>
        failure == FirstFailure(uc.api, uc.repo.store.online, Pairs[3 * li..]) &&
        uc.repo.store.entries == SeedState(old(uc.repo.store.entries), uc.repo.store.online, uc.api, Pairs[3 * li..]) &&
        uc.repo.store.log == old(uc.repo.store.log) + SeedWrites(uc.repo.store.online, uc.api, Pairs[3 * li..]) &&
        uc.api.calls == old(uc.api.calls) + SeedCalls(uc.api, uc.repo.store.online, Pairs[3 * li..]) &&
        uc.extras.idCache == old(uc.extras.idCache) + SeedIds(uc.api, uc.repo.store.online, Pairs[3 * li..])
      ensures failure.None? ==>
        FirstFailure(uc.api, uc.repo.store.online, Pairs[3 * li..]) == FirstFailure(uc.api, uc.repo.store.online, Pairs[3 * li + 3..]) &&
        SeedState(old(uc.repo.store.entries), uc.repo.store.online, uc.api, Pairs[3 * li..])
          == SeedState(uc.repo.store.entries, uc.repo.store.online, uc.api, Pairs[3 * li + 3..]) &&
        old(uc.repo.store.log) + SeedWrites(uc.repo.store.online, uc.api, Pairs[3 * li..])
          == uc.repo.store.log + SeedWrites(uc.repo.store.online, uc.api, Pairs[3 * li + 3..]) &&
        old(uc.api.calls) + SeedCalls(uc.api, uc.repo.store.online, Pairs[3 * li..])
          == uc.api.calls + SeedCalls(uc.api, uc.repo.store.online, Pairs[3 * li + 3..]) &&
        old(uc.extras.idCache) + SeedIds(uc.api, uc.repo.store.online, Pairs[3 * li..])
          == uc.extras.idCache + SeedIds(uc.api, uc.repo.store.online, Pairs[3 * li + 3..])
      ensures uc.extras.statsReads == old(uc.extras.statsReads) && uc.extras.statsSaves == old(uc.extras.statsSaves)
    {
      ghost var k0 := 3 * li;
      ghost var online := uc.repo.store.online;
      for si := 0 to |Seasons|
        invariant FirstFailure(uc.api, online, Pairs[k0..]) == FirstFailure(uc.api, online, Pairs[k0 + si..])
        invariant SeedState(old(uc.repo.store.entries), online, uc.api, Pairs[k0..])
          == SeedState(uc.repo.store.entries, online, uc.api, Pairs[k0 + si..])
        invariant old(uc.repo.store.log) + SeedWrites(online, uc.api, Pairs[k0..])
          == uc.repo.store.log + SeedWrites(online, uc.api, Pairs[k0 + si..])
        invariant old(uc.api.calls) + SeedCalls(uc.api, online, Pairs[k0..])
          == uc.api.calls + SeedCalls(uc.api, online, Pairs[k0 + si..])
        invariant old(uc.extras.idCache) + SeedIds(uc.api, online, Pairs[k0..])
          == uc.extras.idCache + SeedIds(uc.api, online, Pairs[k0 + si..])
        invariant uc.extras.statsReads == old(uc.extras.statsReads) && uc.extras.statsSaves == old(uc.extras.statsSaves)
      {
        PairAt(li, si);
        ghost var p := Pairs[k0 + si];
        FirstFailureUnfold(uc.api, online, Pairs, k0 + si);
        SeedStateUnfold(uc.repo.store.entries, online, uc.api, Pairs, k0 + si);
        SeedWritesUnfold(online, uc.api, Pairs, k0 + si);
        SeedCallsUnfold(uc.api, online, Pairs, k0 + si);
        SeedIdsUnfold(uc.api, online, Pairs, k0 + si);
        ghost var entries1, log1, calls1, ids1 := uc.repo.store.entries, uc.repo.store.log, uc.api.calls, uc.extras.idCache;
        ghost var failed := FetchOutcome(uc.api, online, p).Fail?;
        var r := uc.FetchAndCacheTeams(Leagues[li], Seasons[si]);
        assert r == FetchOutcome(uc.api, online, p) && uc.repo.store.entries == SearchStep(entries1, online, uc.api, p);
        assert uc.repo.store.log == log1 + StepWrites(online, uc.api, p) && uc.extras.idCache == ids1 + IdStep(uc.api, p);
        ConcatAssoc(log1, StepWrites(online, uc.api, p),
                    if failed then [] else SeedWrites(online, uc.api, Pairs[k0 + si + 1..]));
        ConcatAssoc(calls1, [TeamsCall(p.0, p.1)],
                    if failed then [] else SeedCalls(uc.api, online, Pairs[k0 + si + 1..]));
        ConcatAssoc(ids1, IdStep(uc.api, p),
                    if failed then [] else SeedIds(uc.api, online, Pairs[k0 + si + 1..]));
        if r.Fail? {
          return Some(((Leagues[li], Seasons[si]), r.error));
        }
      }
      failure := None;
    }
  }
}
