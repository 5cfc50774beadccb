/**
 * The fixture repositories: APIRepo (cache-aside over the upstream fixtures
 * endpoint, five-minute TTL, store optional) and FixturesRepo (round fixtures and
 * round windows, plus the same cache-aside with a seven-day TTL).
 */
module FixtureRepositories {
  import opened Domain
  import opened Json
  import opened KeyValue
  import opened Keys
  import opened Upstream

  /** What the cache can answer for a fixtures key: a decodable list, or nothing. */
  function CacheHit(m: Entries, online: bool, key: string): (h: Option<GoSlice<Fixture>>)
    ensures h.Some? ==> online && key in m && m[key].Blob?
    ensures online && key in m && m[key].Blob? && m[key].payload.FixtureList? ==> h == Some(Of(m[key].payload.fixtures))
    ensures online && key in m && m[key].Blob? && m[key].payload.Null? ==> h == Some(Nil)
    ensures key in m && m[key].Blob? && !(m[key].payload.FixtureList? || m[key].payload.Null?) ==> h.None?
  {
    match GetOf(m, online, key)
    case Err(_) => None
    case Ok(p) => if DecodeFixtures(p).Ok? then Some(DecodeFixtures(p).value) else None
  }

  /** The fixtures GetFixtures returns; its error result is always nil. */
  function ServeFixtures(hit: Option<GoSlice<Fixture>>, fetched: Result<seq<Fixture>>): (r: GoSlice<Fixture>)
    ensures hit.Some? ==> r == hit.value
    ensures hit.None? ==> r == Of(if fetched.Ok? then fetched.value else [])
    ensures r.Nil? ==> hit == Some(Nil)
  {
    if hit.Some? then hit.value
    else if fetched.Err? then Of([])
    else Of(fetched.value)
  }

  /** The store after GetFixtures: the fetched list is written back only after a miss and a successful fetch. */
  function WriteBack(m: Entries, online: bool, key: string, hit: Option<GoSlice<Fixture>>,
                     fetched: Result<seq<Fixture>>, ttl: nat): (m': Entries)
    ensures hit.Some? || fetched.Err? || !online ==> m' == m
    ensures forall k :: k != key ==> GetOf(m', online, k) == GetOf(m, online, k)
    ensures hit.None? && fetched.Ok? && online ==> key in m' && m'[key] == Blob(EncodeFixtures(fetched.value), ttl)
  {
    if hit.None? && fetched.Ok? then SetOf(m, online, key, EncodeFixtures(fetched.value), ttl) else m
  }

  function WriteBackLog(key: string, hit: Option<GoSlice<Fixture>>, fetched: Result<seq<Fixture>>, ttl: nat): seq<Write> {
    if hit.None? && fetched.Ok? then [SetCall(key, EncodeFixtures(fetched.value), ttl)] else []
  }

  /** A snapshot of an optional store: none configured, or its entries and connection. */
  datatype StoreView = NoStore | View(entries: Entries, online: bool)

  function ViewOf(rdb: Store?): (v: StoreView)
    reads rdb
    ensures v.NoStore? <==> rdb == null
  {
    if rdb == null then NoStore else View(rdb.entries, rdb.online)
  }

  function ViewHit(v: StoreView, key: string): Option<GoSlice<Fixture>> {
    match v
    case NoStore => None
    case View(m, online) => CacheHit(m, online, key)
  }

  function StoreHit(rdb: Store?, key: string): Option<GoSlice<Fixture>>
    reads rdb
  {
    ViewHit(ViewOf(rdb), key)
  }

  /** The view after a GetFixtures write-back; without a store there is nothing to write. */
  function WriteBackView(v: StoreView, key: string, hit: Option<GoSlice<Fixture>>,
                         fetched: Result<seq<Fixture>>, ttl: nat): StoreView {
    match v
    case NoStore => NoStore
    case View(m, online) => View(WriteBack(m, online, key, hit, fetched, ttl), online)
  }

  /** The view after a SET; without a store there is nothing to write. */
  function SetView(v: StoreView, key: string, p: Payload, ttl: nat): StoreView {
    match v
    case NoStore => NoStore
    case View(m, online) => View(SetOf(m, online, key, p, ttl), online)
  }

  function Fetched(api: FixtureApi, league: string, team: string, season: string, from: string, to: string): Result<seq<Fixture>> {
    FetchOf(api.apiKey, api.replies, api.now, league, team, season, from, to)
  }

  /**
   * The cache-aside read shared by APIRepo.GetFixtures and FixturesRepo.GetFixtures:
   * a cached decodable list is returned as is (a cached null as a nil slice); otherwise
   * the API is asked, a failure becomes an empty list, and a success is written back
   * (best-effort: the write's error is dropped).
   */
  method CacheAside(rdb: Store?, api: FixtureApi, ttl: nat,
                    league: string, team: string, season: string, from: string, to: string)
    returns (r: GoSlice<Fixture>)
    modifies rdb, api
    ensures r == ServeFixtures(old(StoreHit(rdb, FixturesKey(league, team, season, from, to))),
                               Fetched(api, league, team, season, from, to))
    ensures api.requests == old(api.requests) +
      (if old(StoreHit(rdb, FixturesKey(league, team, season, from, to))).None?
       then RequestsOf(api.apiKey, league, team, season, from, to) else [])
    ensures rdb != null ==>
      rdb.entries == WriteBack(old(rdb.entries), rdb.online, FixturesKey(league, team, season, from, to),
                               old(StoreHit(rdb, FixturesKey(league, team, season, from, to))),
                               Fetched(api, league, team, season, from, to), ttl) &&
      rdb.log == old(rdb.log) + WriteBackLog(FixturesKey(league, team, season, from, to),
                                             old(StoreHit(rdb, FixturesKey(league, team, season, from, to))),
                                             Fetched(api, league, team, season, from, to), ttl)
  {
    var key := FixturesKey(league, team, season, from, to);
    if rdb != null {
      var raw := rdb.Get(key);
      if raw.Ok? {
        var cached := DecodeFixtures(raw.value);
        if cached.Ok? {
          return cached.value;
        }
      }
    }
    var fixtures := api.FetchFixtures(league, team, season, from, to);
    if fixtures.Err? {
      return Of([]);
    }
    if rdb != null {
      var _ := rdb.Set(key, EncodeFixtures(fixtures.value), ttl);
    }
    r := Of(fixtures.value);
  }

  /** After a miss and a successful fetch, the same query is answered from the cache with the same list. */
  lemma WriteBackThenHit(m: Entries, key: string, fetched: Result<seq<Fixture>>, ttl: nat)
    requires CacheHit(m, true, key).None? && fetched.Ok?
    ensures CacheHit(WriteBack(m, true, key, None, fetched, ttl), true, key) == Some(Of(fetched.value))
    ensures ServeFixtures(CacheHit(WriteBack(m, true, key, None, fetched, ttl), true, key), Err(Transport))
         == ServeFixtures(None, fetched)
  {
  }

  /** A failed fetch is served as an empty, non-nil list and leaves the store untouched. */
  lemma FetchFailureServesEmpty(m: Entries, online: bool, key: string, fetched: Result<seq<Fixture>>, ttl: nat)
    requires CacheHit(m, online, key).None? && fetched.Err?
    ensures ServeFixtures(CacheHit(m, online, key), fetched) == Of([])
    ensures WriteBack(m, online, key, CacheHit(m, online, key), fetched, ttl) == m
    ensures WriteBackLog(key, CacheHit(m, online, key), fetched, ttl) == []
  {
  }

  /** A cached JSON null is served as a nil list, unlike every path through the API. */
  lemma CachedNullServesNil(m: Entries, key: string, fetched: Result<seq<Fixture>>)
    requires key in m && m[key] == Blob(Null, m[key].ttl)
    ensures ServeFixtures(CacheHit(m, true, key), fetched) == Nil
    ensures ServeFixtures(None, fetched) != Nil
  {
  }

  /** APIRepo: fixtures from the API, cached for five minutes when a store is configured. */
  class APIRepo {
    const rdb: Store?
    const api: FixtureApi

    constructor (rdb: Store?, api: FixtureApi)
      ensures this.rdb == rdb && this.api == api
    {
      this.rdb := rdb;
      this.api := api;
    }

    method GetFixtures(league: string, team: string, season: string, from: string, to: string)
      returns (r: GoSlice<Fixture>)
      modifies rdb, api
      ensures r == ServeFixtures(old(StoreHit(rdb, FixturesKey(league, team, season, from, to))),
                                 Fetched(api, league, team, season, from, to))
      ensures api.requests == old(api.requests) +
        (if old(StoreHit(rdb, FixturesKey(league, team, season, from, to))).None?
         then RequestsOf(api.apiKey, league, team, season, from, to) else [])
      ensures rdb != null ==>
        rdb.entries == WriteBack(old(rdb.entries), rdb.online, FixturesKey(league, team, season, from, to),
                                 old(StoreHit(rdb, FixturesKey(league, team, season, from, to))),
                                 Fetched(api, league, team, season, from, to), FiveMinutes) &&
        rdb.log == old(rdb.log) + WriteBackLog(FixturesKey(league, team, season, from, to),
                                               old(StoreHit(rdb, FixturesKey(league, team, season, from, to))),
                                               Fetched(api, league, team, season, from, to), FiveMinutes)
    {
      r := CacheAside(rdb, api, FiveMinutes, league, team, season, from, to);
    }

    /** Writes a list under the fixtures key for five minutes; without a store it does nothing. */
    method SetFixturesCache(league: string, team: string, season: string, from: string, to: string, fixtures: seq<Fixture>)
      returns (r: Outcome)
      modifies rdb
      ensures rdb == null ==> r == Pass
      ensures rdb != null ==>
        r == (if rdb.online then Pass else Fail(StoreDown)) &&
        rdb.entries == SetOf(old(rdb.entries), rdb.online, FixturesKey(league, team, season, from, to),
                             EncodeFixtures(fixtures), FiveMinutes) &&
        rdb.log == old(rdb.log) + [SetCall(FixturesKey(league, team, season, from, to), EncodeFixtures(fixtures), FiveMinutes)]
    {
      if rdb == null {
        return Pass;
      }
      r := rdb.Set(FixturesKey(league, team, season, from, to), EncodeFixtures(fixtures), FiveMinutes);
    }
  }

  /** After SetFixturesCache, GetFixtures for the same query serves that list without asking the API. */
  lemma SetFixturesCacheThenGet(m: Entries, key: string, fixtures: seq<Fixture>, fetched: Result<seq<Fixture>>)
    ensures CacheHit(SetOf(m, true, key, EncodeFixtures(fixtures), FiveMinutes), true, key) == Some(Of(fixtures))
    ensures ServeFixtures(CacheHit(SetOf(m, true, key, EncodeFixtures(fixtures), FiveMinutes), true, key), fetched) == Of(fixtures)
  {
  }

  /** GetFixturesByRound: the list stored under the round key. */
  function RoundsOf(m: Entries, online: bool, q: RoundQuery): (r: Result<seq<PrevFixture>>)
    ensures r.Ok? ==> online && RoundKey(q) in m && m[RoundKey(q)].Blob?
    ensures online && RoundKey(q) !in m ==> r == Err(StoreNil)
    ensures online && RoundKey(q) in m && m[RoundKey(q)].Blob? && m[RoundKey(q)].payload.RoundList? ==>
      r == Ok(m[RoundKey(q)].payload.prev)
  {
    match GetOf(m, online, RoundKey(q))
    case Err(e) => Err(e)
    case Ok(p) => DecodeRounds(p)
  }

  /** GetRoundWindow: the (from, to) pair stored under the window key. */
  function WindowOf(m: Entries, online: bool, q: RoundQuery): (r: Result<(string, string)>)
    ensures r.Ok? ==> online && WindowKey(q) in m && m[WindowKey(q)].Blob?
    ensures online && WindowKey(q) !in m ==> r == Err(StoreNil)
    ensures online && WindowKey(q) in m && m[WindowKey(q)].Blob? && m[WindowKey(q)].payload.WindowObject? ==>
      r == Ok((m[WindowKey(q)].payload.from, m[WindowKey(q)].payload.to))
  {
    match GetOf(m, online, WindowKey(q))
    case Err(e) => Err(e)
    case Ok(p) => DecodeWindow(p)
  }

  /** A saved round list is read back unchanged. */
  lemma SaveRoundsThenGet(m: Entries, q: RoundQuery, ps: seq<PrevFixture>)
    ensures RoundsOf(SetOf(m, true, RoundKey(q), EncodeRounds(ps), 0), true, q) == Ok(ps)
  {
  }

  /** A saved window is read back as the query's own from and to. */
  lemma SaveWindowThenGet(m: Entries, q: RoundQuery)
    ensures WindowOf(SetOf(m, true, WindowKey(q), EncodeWindow(q.from, q.to), 0), true, q) == Ok((q.from, q.to))
  {
  }

  /** Saving a round list leaves every window whose key differs from the round key alone. */
  lemma SaveRoundsKeepsWindow(m: Entries, q: RoundQuery, w: RoundQuery, ps: seq<PrevFixture>)
    requires WindowKey(w) != RoundKey(q)
    ensures WindowOf(SetOf(m, true, RoundKey(q), EncodeRounds(ps), 0), true, w) == WindowOf(m, true, w)
  {
  }

  /** Because the window key has no prefix, a window save can overwrite a round list. */
  lemma WindowSaveCanClobberRounds(m: Entries, ps: seq<PrevFixture>)
    ensures var q := RoundQuery("ETH", 2022, "1", "", "");
            var w := RoundQuery("pf:ETH", 2022, "1", "2022-08-01", "2022-08-07");
            RoundsOf(SetOf(SetOf(m, true, RoundKey(q), EncodeRounds(ps), 0), true, WindowKey(w), EncodeWindow(w.from, w.to), 0), true, q)
              == Err(DecodeFailed)
  {
    WindowKeyCanCollideWithRoundKey();
  }

  /**
   * FixturesRepo: round fixtures and windows with no expiry, and cached fixtures for
   * seven days. The round methods use the store unguarded, so they need one; GetFixtures
   * works without a store, asking the API every time and caching nothing.
   */
  class FixturesRepo {
    const rdb: Store?
    const api: FixtureApi

    constructor (rdb: Store?, api: FixtureApi)
      ensures this.rdb == rdb && this.api == api
    {
      this.rdb := rdb;
      this.api := api;
    }

    method SaveFixturesByRound(q: RoundQuery, fixtures: seq<PrevFixture>) returns (r: Outcome)
      requires rdb != null
      modifies rdb
      ensures r == (if rdb.online then Pass else Fail(StoreDown))
      ensures rdb.entries == SetOf(old(rdb.entries), rdb.online, RoundKey(q), EncodeRounds(fixtures), 0)
      ensures rdb.log == old(rdb.log) + [SetCall(RoundKey(q), EncodeRounds(fixtures), 0)]
    {
      r := rdb.Set(RoundKey(q), EncodeRounds(fixtures), 0);
    }

    method SaveRoundWindow(q: RoundQuery) returns (r: Outcome)
      requires rdb != null
      modifies rdb
      ensures r == (if rdb.online then Pass else Fail(StoreDown))
      ensures rdb.entries == SetOf(old(rdb.entries), rdb.online, WindowKey(q), EncodeWindow(q.from, q.to), 0)
      ensures rdb.log == old(rdb.log) + [SetCall(WindowKey(q), EncodeWindow(q.from, q.to), 0)]
    {
      r := rdb.Set(WindowKey(q), EncodeWindow(q.from, q.to), 0);
    }

    method GetFixturesByRound(q: RoundQuery) returns (r: Result<seq<PrevFixture>>)
      requires rdb != null
      ensures r == RoundsOf(rdb.entries, rdb.online, q)
    {
      var raw := rdb.Get(RoundKey(q));
      if raw.Err? {
        return Err(raw.error);
      }
      r := DecodeRounds(raw.value);
    }

    /** Both strings are empty whenever an error is returned. */
    method GetRoundWindow(q: RoundQuery) returns (from: string, to: string, err: Option<Error>)
      requires rdb != null
      ensures err.None? <==> WindowOf(rdb.entries, rdb.online, q).Ok?
      ensures err.Some? ==> from == "" && to == "" && err.value == WindowOf(rdb.entries, rdb.online, q).error
      ensures err.None? ==> (from, to) == WindowOf(rdb.entries, rdb.online, q).value
    {
      var raw := rdb.Get(WindowKey(q));
      if raw.Err? {
        return "", "", Some(raw.error);
      }
      var v := DecodeWindow(raw.value);
      if v.Err? {
        return "", "", Some(v.error);
      }
      from, to, err := v.value.0, v.value.1, None;
    }

    method GetFixtures(league: string, team: string, season: string, from: string, to: string)
      returns (r: GoSlice<Fixture>)
      modifies rdb, api
      ensures r == ServeFixtures(old(StoreHit(rdb, FixturesKey(league, team, season, from, to))),
                                 Fetched(api, league, team, season, from, to))
      ensures api.requests == old(api.requests) +
        (if old(StoreHit(rdb, FixturesKey(league, team, season, from, to))).None?
         then RequestsOf(api.apiKey, league, team, season, from, to) else [])
      ensures rdb != null ==>
        rdb.entries == WriteBack(old(rdb.entries), rdb.online, FixturesKey(league, team, season, from, to),
                                 old(StoreHit(rdb, FixturesKey(league, team, season, from, to))),
                                 Fetched(api, league, team, season, from, to), SevenDays) &&
        rdb.log == old(rdb.log) + WriteBackLog(FixturesKey(league, team, season, from, to),
                                               old(StoreHit(rdb, FixturesKey(league, team, season, from, to))),
                                               Fetched(api, league, team, season, from, to), SevenDays)
    {
      r := CacheAside(rdb, api, SevenDays, league, team, season, from, to);
    }
  }
}
