/**
 * The team repository (teamRepo over Redis): team hashes at "team:<id>", the
 * catalog blob at "teams:<league>:<season>", and the plain name-to-ID key.
 * The specification functions describe each operation on the store's entries;
 * the class methods run the same commands through the Store.
 */
module TeamRepository {
  import opened Domain
  import opened Numeric
  import opened Json
  import opened KeyValue
  import opened Keys

  /** The hash a team is written as. Add names its ID field "ID"; SaveTeamByID and SaveAllTeams name it "id". */
  function TeamFields(idField: string, t: Team): map<string, string> {
    map[idField := t.id, "name" := t.name, "short" := t.short, "league" := t.league,
        "crest_url" := t.crestUrl, "bio" := t.bio]
  }

  /** A Go map read: a missing field reads as "". */
  function Field(vals: map<string, string>, f: string): string {
    if f in vals then vals[f] else ""
  }

  function TeamFromHash(idField: string, vals: map<string, string>): Team {
    Team(Field(vals, idField), Field(vals, "name"), Field(vals, "short"), Field(vals, "league"),
         Field(vals, "crest_url"), Field(vals, "bio"))
  }

  /** Reading back the fields a team was written with gives the team, whatever else the hash holds. */
  lemma TeamFromFields(idField: string, t: Team, vals: map<string, string>)
    requires idField !in {"name", "short", "league", "crest_url", "bio"}
    requires forall f :: f in TeamFields(idField, t) ==> f in vals && vals[f] == TeamFields(idField, t)[f]
    ensures TeamFromHash(idField, vals) == t
  {
    var fs := TeamFields(idField, t);
    assert idField in fs && "name" in fs && "short" in fs && "league" in fs && "crest_url" in fs && "bio" in fs;
  }

  /** A hash lookup: store error -> InternalServer, no fields -> TeamNotFound, else the team. */
  function ReadTeam(m: Entries, online: bool, key: string, idField: string): (r: Result<Team>)
    ensures r.Err? ==> r.error in {InternalServer, TeamNotFound}
    ensures r == Err(TeamNotFound) <==> HGetAllOf(m, online, key) == Ok(map[])
    ensures r.Ok? ==> HGetAllOf(m, online, key).Ok? && r.value == TeamFromHash(idField, HGetAllOf(m, online, key).value)
  {
    match HGetAllOf(m, online, key)
    case Err(_) => Err(InternalServer)
    case Ok(vals) => if |vals| == 0 then Err(TeamNotFound) else Ok(TeamFromHash(idField, vals))
  }

  /** teamRepo.Get: the hash at "team:"+id, ID taken from field "ID". */
  function GetTeamOf(m: Entries, online: bool, id: string): Result<Team> {
    ReadTeam(m, online, TeamKey(id), "ID")
  }

  /** teamRepo.GetTeamByID: the hash at "team:%d", ID taken from field "id". */
  function GetTeamByIDOf(m: Entries, online: bool, n: int): Result<Team> {
    ReadTeam(m, online, TeamKeyFor(n), "id")
  }

  /** teamRepo.Add outcome: store error -> InternalServer; an existing key -> DuplicateFound. */
  function AddResult(m: Entries, online: bool, t: Team): (r: Outcome)
    ensures r == Fail(DuplicateFound) <==> online && TeamKey(t.id) in m
    ensures r == Pass <==> online && TeamKey(t.id) !in m
  {
    var key := TeamKey(t.id);
    match ExistsOf(m, online, key)
    case Err(_) => Fail(InternalServer)
    case Ok(present) =>
      if present then Fail(DuplicateFound)
      else if HSetResult(m, online, key).Fail? then Fail(InternalServer)
      else Pass
  }

  /** teamRepo.Add effect: a new hash with field "ID" and a 7-day expiry, or nothing. */
  function AddState(m: Entries, online: bool, t: Team): (m': Entries)
    ensures AddResult(m, online, t).Fail? ==> m' == m
    ensures AddResult(m, online, t).Pass? ==>
      m' == m[TeamKey(t.id) := Hash(TeamFields("ID", t), SevenDays)]
  {
    var key := TeamKey(t.id);
    if AddResult(m, online, t).Fail? then m
    else ExpireOf(HSetOf(m, online, key, TeamFields("ID", t)), online, key, SevenDays)
  }

  /** The write commands Add issues: none on a duplicate, else HSET then EXPIRE. */
  function AddLog(m: Entries, online: bool, t: Team): seq<Write> {
    var key := TeamKey(t.id);
    if !online || key in m then []
    else [HSetCall(key, TeamFields("ID", t)), ExpireCall(key, SevenDays)]
  }

  /** teamRepo.GetID: the integer stored under the raw team name. */
  function GetIDOf(m: Entries, online: bool, name: string): (r: Result<int>)
    ensures r.Err? ==> r.error in {TeamNotFound, InternalServer}
    ensures r == Err(TeamNotFound) <==> online && name !in m
  {
    match GetOf(m, online, name)
    case Err(e) => if e == StoreNil then Err(TeamNotFound) else Err(InternalServer)
    case Ok(p) =>
      if p.Text? && Atoi(p.text).Some? then Ok(Atoi(p.text).value) else Err(InternalServer)
  }

  /** GetID returns the number a name was cached with. */
  lemma GetIDOfCachedNumber(m: Entries, name: string, n: int, ttl: nat)
    requires InRange(n)
    ensures GetIDOf(m[name := Blob(Text(Itoa(n)), ttl)], true, name) == Ok(n)
  {
    AtoiItoa(n);
  }

  /** teamRepo.GetAllTeams: the decoded catalog blob. */
  function GetAllTeamsOf(m: Entries, online: bool, league: int, season: int): (r: Result<seq<Team>>)
    ensures r.Err? ==> r.error in {TeamNotFound, InternalServer}
    ensures r == Err(TeamNotFound) <==> online && TeamsKey(league, season) !in m
  {
    match GetOf(m, online, TeamsKey(league, season))
    case Err(e) => if e == StoreNil then Err(TeamNotFound) else Err(InternalServer)
    case Ok(p) => if DecodeTeams(p).Err? then Err(InternalServer) else Ok(DecodeTeams(p).value)
  }

  /** The per-team hash write of SaveAllTeams: only teams whose ID parses as an integer. */
  function HashOne(m: Entries, t: Team): Entries {
    match Atoi(t.id)
    case None => m
    case Some(n) => HSetOf(m, true, TeamKeyFor(n), TeamFields("id", t))
  }

  /** The per-team hash writes of SaveAllTeams, in list order. */
  function HashTeams(m: Entries, ts: seq<Team>): Entries
    decreases |ts|
  {
    if ts == [] then m else HashOne(HashTeams(m, ts[..|ts| - 1]), ts[|ts| - 1])
  }

  /** The HSET a team causes in SaveAllTeams: one when its ID is numeric, none otherwise. */
  function HashWrite(t: Team): seq<Write> {
    match Atoi(t.id)
    case None => []
    case Some(n) => [HSetCall(TeamKeyFor(n), TeamFields("id", t))]
  }

  /** One HSET per team with a numeric ID, in list order. */
  function HashLog(ts: seq<Team>): seq<Write>
    decreases |ts|
  {
    if ts == [] then [] else HashLog(ts[..|ts| - 1]) + HashWrite(ts[|ts| - 1])
  }

  /** teamRepo.SaveAllTeams outcome: only the catalog write can fail the call. */
  function SaveAllResult(online: bool): Outcome {
    if online then Pass else Fail(InternalServer)
  }

  /** teamRepo.SaveAllTeams effect: the catalog blob with no expiry, then one hash per numeric ID. */
  function SaveAllState(m: Entries, online: bool, league: int, season: int, ts: seq<Team>): Entries {
    if !online then m else HashTeams(SetOf(m, true, TeamsKey(league, season), EncodeTeams(ts), 0), ts)
  }

  function SaveAllLog(online: bool, league: int, season: int, ts: seq<Team>): seq<Write> {
    [SetCall(TeamsKey(league, season), EncodeTeams(ts), 0)] + (if online then HashLog(ts) else [])
  }

  /** The per-team hashes leave every non-team key as it was, and never create or remove a blob. */
  lemma {:induction false} HashTeamsFrame(m: Entries, ts: seq<Team>, k: string)
    ensures (forall n :: k != TeamKeyFor(n)) ==>
      (k in HashTeams(m, ts) <==> k in m) && (k in m ==> HashTeams(m, ts)[k] == m[k])
    ensures (k in HashTeams(m, ts) && HashTeams(m, ts)[k].Blob?) <==> (k in m && m[k].Blob?)
    decreases |ts|
  {
    if ts != [] {
      HashTeamsFrame(m, ts[..|ts| - 1], k);
    }
  }

  /** Add then Get on the same ID gives back the team added. */
  lemma AddThenGet(m: Entries, online: bool, t: Team)
    requires AddResult(m, online, t).Pass?
    ensures GetTeamOf(AddState(m, online, t), online, t.id) == Ok(t)
  {
    var vals := TeamFields("ID", t);
    assert "ID" in vals;
    TeamFromFields("ID", t, vals);
  }

  /** SaveTeamByID(n, t) then GetTeamByID(n) gives back t, whatever hash was there before. */
  lemma SaveByIDThenGetByID(m: Entries, online: bool, n: int, t: Team)
    requires HSetResult(m, online, TeamKeyFor(n)).Pass?
    ensures GetTeamByIDOf(HSetOf(m, online, TeamKeyFor(n), TeamFields("id", t)), online, n) == Ok(t)
  {
    var key := TeamKeyFor(n);
    var m' := HSetOf(m, online, key, TeamFields("id", t));
    var vals := HGetAllOf(m', online, key).value;
    assert "id" in TeamFields("id", t);
    TeamFromFields("id", t, vals);
  }

  /** The field names do not line up: a team written by Add and read by GetTeamByID loses its ID. */
  lemma AddThenGetByIDLosesID(m: Entries, online: bool, t: Team, n: int)
    requires AddResult(m, online, t).Pass? && t.id == Itoa(n)
    ensures GetTeamByIDOf(AddState(m, online, t), online, n) == Ok(t.(id := ""))
  {
    assert "ID" in TeamFields("ID", t);
  }

  /** ... and a team written by SaveTeamByID into a fresh key and read by Get loses its ID too. */
  lemma SaveByIDThenGetLosesID(m: Entries, online: bool, n: int, t: Team)
    requires online && TeamKeyFor(n) !in m
    ensures GetTeamOf(HSetOf(m, online, TeamKeyFor(n), TeamFields("id", t)), online, Itoa(n)) == Ok(t.(id := ""))
  {
    var key := TeamKeyFor(n);
    var fs := TeamFields("id", t);
    assert HSetOf(m, online, key, fs) == m[key := Hash(fs, 0)];
    assert HGetAllOf(m[key := Hash(fs, 0)], online, key) == Ok(fs);
    assert "id" in fs && "ID" !in fs;
    assert TeamFromHash("ID", fs) == t.(id := "");
  }

  /** SaveAllTeams then GetAllTeams for the same league and season gives back the list. */
  lemma SaveAllThenGetAll(m: Entries, league: int, season: int, ts: seq<Team>)
    ensures GetAllTeamsOf(SaveAllState(m, true, league, season, ts), true, league, season) == Ok(ts)
  {
    var key := TeamsKey(league, season);
    var m1 := SetOf(m, true, key, EncodeTeams(ts), 0);
    forall n ensures key != TeamKeyFor(n) {
      PrefixedKeysDisjoint(Itoa(n), league, season, RoundQuery("", 0, "", "", ""), "", "", "", "", "");
    }
    HashTeamsFrame(m1, ts, key);
  }

  /** GetTeamByID(n) depends only on the entry at "team:n". */
  lemma GetTeamByIDLocal(m1: Entries, m2: Entries, online: bool, n: int)
    requires TeamKeyFor(n) in m1 <==> TeamKeyFor(n) in m2
    requires TeamKeyFor(n) in m1 ==> m1[TeamKeyFor(n)] == m2[TeamKeyFor(n)]
    ensures GetTeamByIDOf(m1, online, n) == GetTeamByIDOf(m2, online, n)
  {
  }

  /** The hash write for a team whose ID is not n leaves GetTeamByID(n) unchanged. */
  lemma HashOneOtherID(m: Entries, t: Team, n: int)
    requires Atoi(t.id) != Some(n)
    ensures GetTeamByIDOf(HashOne(m, t), true, n) == GetTeamByIDOf(m, true, n)
  {
    if Atoi(t.id).Some? {
      TeamKeyForInjective(n, Atoi(t.id).value);
    }
    GetTeamByIDLocal(HashOne(m, t), m, true, n);
  }

  /**
   * After SaveAllTeams, GetTeamByID(n) finds the last team of the list whose ID
   * parses as n, unless "team:n" held a blob (then the HSET fails and is ignored).
   */
  lemma {:induction false} SaveAllThenGetByID(m: Entries, ts: seq<Team>, i: nat, n: int)
    requires i < |ts| && Atoi(ts[i].id) == Some(n)
    requires forall j :: i < j < |ts| ==> Atoi(ts[j].id) != Some(n)
    requires !(TeamKeyFor(n) in m && m[TeamKeyFor(n)].Blob?)
    ensures GetTeamByIDOf(HashTeams(m, ts), true, n) == Ok(ts[i])
    decreases |ts|
  {
    if i == |ts| - 1 {
      SaveAllLastThenGetByID(m, ts, n);
    } else {
      SaveAllThenGetByID(m, ts[..|ts| - 1], i, n);
      SaveAllOtherLast(m, ts, n);
    }
  }

  /** A last team whose ID is not n does not change what GetTeamByID(n) reads after SaveAllTeams. */
  lemma SaveAllOtherLast(m: Entries, ts: seq<Team>, n: int)
    requires |ts| > 0 && Atoi(ts[|ts| - 1].id) != Some(n)
    ensures GetTeamByIDOf(HashTeams(m, ts), true, n) == GetTeamByIDOf(HashTeams(m, ts[..|ts| - 1]), true, n)
  {
    assert HashTeams(m, ts) == HashOne(HashTeams(m, ts[..|ts| - 1]), ts[|ts| - 1]);
    HashOneOtherID(HashTeams(m, ts[..|ts| - 1]), ts[|ts| - 1], n);
  }

  /** The case of SaveAllThenGetByID where the last team of the list carries the ID. */
  lemma SaveAllLastThenGetByID(m: Entries, ts: seq<Team>, n: int)
    requires |ts| > 0 && Atoi(ts[|ts| - 1].id) == Some(n)
    requires !(TeamKeyFor(n) in m && m[TeamKeyFor(n)].Blob?)
    ensures GetTeamByIDOf(HashTeams(m, ts), true, n) == Ok(ts[|ts| - 1])
  {
    var init := ts[..|ts| - 1];
    var last := ts[|ts| - 1];
    var before := HashTeams(m, init);
    assert HashTeams(m, ts) == HashOne(before, last);
    HashTeamsFrame(m, init, TeamKeyFor(n));
    SaveByIDThenGetByID(before, true, n, last);
  }

  class TeamRepo {
    const store: Store

    constructor (store: Store)
      ensures this.store == store
    {
      this.store := store;
    }

    method Get(id: string) returns (r: Result<Team>)
      ensures r == GetTeamOf(store.entries, store.online, id)
    {
      var vals := store.HGetAll(TeamKey(id));
      if vals.Err? {
        return Err(InternalServer);
      }
      if |vals.value| == 0 {
        return Err(TeamNotFound);
      }
      r := Ok(TeamFromHash("ID", vals.value));
    }

    method Add(t: Team) returns (r: Outcome)
      modifies store
      ensures r == AddResult(old(store.entries), store.online, t)
      ensures store.entries == AddState(old(store.entries), store.online, t)
      ensures store.log == old(store.log) + AddLog(old(store.entries), store.online, t)
    {
      var key := TeamKey(t.id);
      var present := store.Exists(key);
      if present.Err? {
        return Fail(InternalServer);
      }
      if present.value {
        return Fail(DuplicateFound);
      }
      var written := store.HSet(key, TeamFields("ID", t));
      if written.Fail? {
        return Fail(InternalServer);
      }
      var _ := store.Expire(key, SevenDays);
      r := Pass;
    }

    method GetID(name: string) returns (r: Result<int>)
      ensures r == GetIDOf(store.entries, store.online, name)
    {
      var val := store.Get(name);
      if val.Err? {
        if val.error == StoreNil {
          return Err(TeamNotFound);
        }
        return Err(InternalServer);
      }
      if !val.value.Text? {
        return Err(InternalServer);
      }
      var id := Atoi(val.value.text);
      if id.None? {
        return Err(InternalServer);
      }
      r := Ok(id.value);
    }

    method GetTeamByID(n: int) returns (r: Result<Team>)
      ensures r == GetTeamByIDOf(store.entries, store.online, n)
    {
      var vals := store.HGetAll(TeamKeyFor(n));
      if vals.Err? {
        return Err(InternalServer);
      }
      if |vals.value| == 0 {
        return Err(TeamNotFound);
      }
      r := Ok(TeamFromHash("id", vals.value));
    }

    method SaveTeamByID(n: int, t: Team) returns (r: Outcome)
      modifies store
      ensures r == if HSetResult(old(store.entries), store.online, TeamKeyFor(n)).Pass? then Pass else Fail(InternalServer)
      ensures store.entries == HSetOf(old(store.entries), store.online, TeamKeyFor(n), TeamFields("id", t))
      ensures store.log == old(store.log) + [HSetCall(TeamKeyFor(n), TeamFields("id", t))]
    {
      var written := store.HSet(TeamKeyFor(n), TeamFields("id", t));
      r := if written.Fail? then Fail(InternalServer) else Pass;
    }

    method GetAllTeams(league: int, season: int) returns (r: Result<seq<Team>>)
      ensures r == GetAllTeamsOf(store.entries, store.online, league, season)
    {
      var raw := store.Get(TeamsKey(league, season));
      if raw.Err? {
        if raw.error == StoreNil {
          return Err(TeamNotFound);
        }
        return Err(InternalServer);
      }
      var teams := DecodeTeams(raw.value);
      if teams.Err? {
        return Err(InternalServer);
      }
      r := Ok(teams.value);
    }

    method SaveAllTeams(league: int, season: int, ts: seq<Team>) returns (r: Outcome)
      modifies store
      ensures r == SaveAllResult(store.online)
      ensures store.entries == SaveAllState(old(store.entries), store.online, league, season, ts)
      ensures store.log == old(store.log) + SaveAllLog(store.online, league, season, ts)
    {
      var written := store.Set(TeamsKey(league, season), EncodeTeams(ts), 0);
      if written.Fail? {
        return Fail(InternalServer);
      }
      SaveEachTeam(ts);
      r := Pass;
    }

    /** The loop of SaveAllTeams: one HSET per team with a numeric ID; failures are ignored. */
    method SaveEachTeam(ts: seq<Team>)
      requires store.online
      modifies store
      ensures store.entries == HashTeams(old(store.entries), ts)
      ensures store.log == old(store.log) + HashLog(ts)
    {
      for i := 0 to |ts|
        invariant store.entries == HashTeams(old(store.entries), ts[..i])
        invariant store.log == old(store.log) + HashLog(ts[..i])
      {
        assert ts[..i + 1][..i] == ts[..i] && ts[..i + 1][i] == ts[i];
        var id := Atoi(ts[i].id);
        if id.Some? {
          var _ := store.HSet(TeamKeyFor(id.value), TeamFields("id", ts[i]));
        }
      }
      assert ts[..|ts|] == ts;
    }
  }
}
