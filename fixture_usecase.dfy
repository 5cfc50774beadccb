/**
 * The fixture use case: a cache source tried first and a repo source as fallback,
 * each either an APIRepo or a FixturesRepo. The two may share one store, so the
 * repo's view of the store is the cache's view after the cache's own write-back.
 */
module FixtureUsecases {
  import opened Domain
  import opened Json
  import opened KeyValue
  import opened Keys
  import opened Upstream
  import opened FixtureRepositories

  /** A FixtureRepo implementation. */
  datatype FixtureSource = ApiSource(apiRepo: APIRepo) | StoreSource(fixturesRepo: FixturesRepo)

  function SourceStore(src: FixtureSource): Store? {
    match src
    case ApiSource(a) => a.rdb
    case StoreSource(f) => f.rdb
  }

  function SourceApi(src: FixtureSource): FixtureApi {
    match src
    case ApiSource(a) => a.api
    case StoreSource(f) => f.api
  }

  /** APIRepo caches for five minutes, FixturesRepo for seven days. */
  function SourceTtl(src: FixtureSource): nat {
    if src.ApiSource? then FiveMinutes else SevenDays
  }

  /** The objects a source's GetFixtures may change. */
  function Footprint(src: FixtureSource): (fp: set<object>)
    ensures SourceApi(src) in fp
    ensures SourceStore(src) != null ==> SourceStore(src) in fp
    ensures forall o :: o in fp ==> o == SourceApi(src) || o == SourceStore(src)
  {
    {SourceApi(src)} + (if SourceStore(src) == null then {} else {SourceStore(src)})
  }

  /** What a source's GetFixtures returns when its store looks like v. */
  function SourceAnswer(v: StoreView, src: FixtureSource, league: string, team: string, season: string, from: string, to: string)
    : GoSlice<Fixture>
  {
    ServeFixtures(ViewHit(v, FixturesKey(league, team, season, from, to)), Fetched(SourceApi(src), league, team, season, from, to))
  }

  /** A source's store after its GetFixtures, from its view before. */
  function SourceViewAfter(v: StoreView, src: FixtureSource, league: string, team: string, season: string, from: string, to: string)
    : StoreView
  {
    var key := FixturesKey(league, team, season, from, to);
    WriteBackView(v, key, ViewHit(v, key), Fetched(SourceApi(src), league, team, season, from, to), SourceTtl(src))
  }

  /** GetFixtures through the interface: dispatch on the implementation. */
  method GetFrom(src: FixtureSource, league: string, team: string, season: string, from: string, to: string)
    returns (r: GoSlice<Fixture>)
    modifies Footprint(src)
    ensures r == SourceAnswer(old(ViewOf(SourceStore(src))), src, league, team, season, from, to)
    ensures ViewOf(SourceStore(src)) == SourceViewAfter(old(ViewOf(SourceStore(src))), src, league, team, season, from, to)
    ensures SourceApi(src).requests == old(SourceApi(src).requests) +
      (if old(StoreHit(SourceStore(src), FixturesKey(league, team, season, from, to))).None?
       then RequestsOf(SourceApi(src).apiKey, league, team, season, from, to) else [])
  {
    match src
    case ApiSource(a) =>
      r := a.GetFixtures(league, team, season, from, to);
    case StoreSource(f) =>
      r := f.GetFixtures(league, team, season, from, to);
  }

  /** The use case's answer: a non-empty cache answer, else the repo's answer, never a nil list. */
  function UsecaseAnswer(cached: GoSlice<Fixture>, fetched: GoSlice<Fixture>): (r: GoSlice<Fixture>)
    ensures r.Of?
    ensures |cached.Elems()| > 0 ==> r == cached
    ensures |cached.Elems()| == 0 ==> r.Elems() == fetched.Elems()
  {
    if |cached.Elems()| > 0 then cached
    else if fetched.Nil? then Of([])
    else fetched
  }

  /** The repo's answer is copied into the cache only when the cache is an APIRepo with a store and the answer is not nil. */
  function WritesBack(cache: FixtureSource, cached: GoSlice<Fixture>, fetched: GoSlice<Fixture>): bool {
    |cached.Elems()| == 0 && fetched.Of? && cache.ApiSource? && SourceStore(cache) != null
  }

  /** The repo's store as the repo sees it: the cache's store after the cache call when they are one store. */
  function RepoView(cv: StoreView, rv: StoreView, shared: bool, cache: FixtureSource,
                    league: string, team: string, season: string, from: string, to: string): StoreView {
    if shared then SourceViewAfter(cv, cache, league, team, season, from, to) else rv
  }

  function FixturesAnswer(cv: StoreView, rv: StoreView, shared: bool, cache: FixtureSource, repo: FixtureSource,
                          league: string, team: string, season: string, from: string, to: string): GoSlice<Fixture> {
    UsecaseAnswer(SourceAnswer(cv, cache, league, team, season, from, to),
                  SourceAnswer(RepoView(cv, rv, shared, cache, league, team, season, from, to), repo, league, team, season, from, to))
  }

  /** With separate stores, the cache's store afterwards: its own write-back, then the copied repo answer. */
  function CacheViewAfter(cv: StoreView, rv: StoreView, cache: FixtureSource, repo: FixtureSource,
                          league: string, team: string, season: string, from: string, to: string): StoreView {
    var v1 := SourceViewAfter(cv, cache, league, team, season, from, to);
    var cached := SourceAnswer(cv, cache, league, team, season, from, to);
    var fetched := SourceAnswer(rv, repo, league, team, season, from, to);
    if WritesBack(cache, cached, fetched)
    then SetView(v1, FixturesKey(league, team, season, from, to), EncodeFixtures(fetched.Elems()), FiveMinutes)
    else v1
  }

  /** With separate stores, the repo's store afterwards: untouched unless the repo was asked. */
  function RepoViewAfter(cv: StoreView, rv: StoreView, cache: FixtureSource, repo: FixtureSource,
                         league: string, team: string, season: string, from: string, to: string): StoreView {
    if |SourceAnswer(cv, cache, league, team, season, from, to).Elems()| > 0 then rv
    else SourceViewAfter(rv, repo, league, team, season, from, to)
  }

  class FixtureUsecase {
    const repo: FixtureSource
    const cache: FixtureSource

    constructor (repo: FixtureSource, cache: FixtureSource)
      ensures this.repo == repo && this.cache == cache
    {
      this.repo := repo;
      this.cache := cache;
    }

    method GetFixtures(league: string, team: string, season: string, from: string, to: string)
      returns (r: Result<GoSlice<Fixture>>)
      modifies Footprint(cache) + Footprint(repo)
      ensures league == "" ==>
        r == Err(InvalidInput("league is required")) &&
        ViewOf(SourceStore(cache)) == old(ViewOf(SourceStore(cache))) && ViewOf(SourceStore(repo)) == old(ViewOf(SourceStore(repo))) &&
        SourceApi(cache).requests == old(SourceApi(cache).requests) && SourceApi(repo).requests == old(SourceApi(repo).requests)
      ensures league != "" ==> r.Ok? && Served(r.value, old(ViewOf(SourceStore(cache))), old(ViewOf(SourceStore(repo))),
                                             league, team, season, from, to)
      ensures league != "" && SourceApi(repo) != SourceApi(cache) &&
              |SourceAnswer(old(ViewOf(SourceStore(cache))), cache, league, team, season, from, to).Elems()| > 0 ==>
                SourceApi(repo).requests == old(SourceApi(repo).requests)
      ensures league != "" &&
              |SourceAnswer(old(ViewOf(SourceStore(cache))), cache, league, team, season, from, to).Elems()| > 0 ==>
                SourceApi(cache).requests == old(SourceApi(cache).requests) +
                  (if old(StoreHit(SourceStore(cache), FixturesKey(league, team, season, from, to))).None?
                   then RequestsOf(SourceApi(cache).apiKey, league, team, season, from, to) else [])
    {
      if league == "" {
        return Err(InvalidInput("league is required"));
      }
      var fixtures := Serve(league, team, season, from, to);
      r := Ok(fixtures);
    }

    /** The two sources do not write to one store: their stores differ, or the cache has none. */
    predicate SeparateStores()
    {
      SourceStore(cache) == null || SourceStore(cache) != SourceStore(repo)
    }

    /** What GetFixtures promises for a given league: its answer, and with separate stores, the state of both. */
    ghost predicate Served(r: GoSlice<Fixture>, cv: StoreView, rv: StoreView,
                           league: string, team: string, season: string, from: string, to: string)
      reads this, Footprint(cache), Footprint(repo)
    {
      r == FixturesAnswer(cv, rv, SourceStore(repo) == SourceStore(cache), cache, repo, league, team, season, from, to) &&
      (SeparateStores() ==>
         ViewOf(SourceStore(cache)) == CacheViewAfter(cv, rv, cache, repo, league, team, season, from, to) &&
         ViewOf(SourceStore(repo)) == RepoViewAfter(cv, rv, cache, repo, league, team, season, from, to))
    }

    /** GetFixtures once the league is known to be given. */
    method Serve(league: string, team: string, season: string, from: string, to: string)
      returns (r: GoSlice<Fixture>)
      modifies Footprint(cache) + Footprint(repo)
      ensures Served(r, old(ViewOf(SourceStore(cache))), old(ViewOf(SourceStore(repo))),
                     league, team, season, from, to)
      ensures SourceApi(repo) != SourceApi(cache) &&
              |SourceAnswer(old(ViewOf(SourceStore(cache))), cache, league, team, season, from, to).Elems()| > 0 ==>
                SourceApi(repo).requests == old(SourceApi(repo).requests)
      ensures |SourceAnswer(old(ViewOf(SourceStore(cache))), cache, league, team, season, from, to).Elems()| > 0 ==>
                SourceApi(cache).requests == old(SourceApi(cache).requests) +
                  (if old(StoreHit(SourceStore(cache), FixturesKey(league, team, season, from, to))).None?
                   then RequestsOf(SourceApi(cache).apiKey, league, team, season, from, to) else [])
    {
      ghost var cv, rv := ViewOf(SourceStore(cache)), ViewOf(SourceStore(repo));
      ghost var shared := SourceStore(repo) == SourceStore(cache);
      var cached := GetFrom(cache, league, team, season, from, to);
      if |cached.Elems()| > 0 {
        HitAnswer(cv, rv, shared, cache, repo, league, team, season, from, to);
        return cached;
      }
      MissAnswer(cv, rv, shared, cache, repo, league, team, season, from, to);
      assert ViewOf(SourceStore(repo)) == RepoView(cv, rv, shared, cache, league, team, season, from, to);
      r := Fallback(league, team, season, from, to);
    }

    /** The part of GetFixtures after an empty cache answer: the repo, then the copy into an APIRepo cache. */
    method Fallback(league: string, team: string, season: string, from: string, to: string)
      returns (r: GoSlice<Fixture>)
      modifies Footprint(cache) + Footprint(repo)
      ensures r == UsecaseAnswer(Of([]), SourceAnswer(old(ViewOf(SourceStore(repo))), repo, league, team, season, from, to))
      ensures SeparateStores() ==>
        ViewOf(SourceStore(repo)) == SourceViewAfter(old(ViewOf(SourceStore(repo))), repo, league, team, season, from, to) &&
        ViewOf(SourceStore(cache)) ==
          (var fetched := SourceAnswer(old(ViewOf(SourceStore(repo))), repo, league, team, season, from, to);
           if WritesBack(cache, Of([]), fetched)
           then SetView(old(ViewOf(SourceStore(cache))), FixturesKey(league, team, season, from, to), EncodeFixtures(fetched.Elems()), FiveMinutes)
           else old(ViewOf(SourceStore(cache))))
    {
      var fetched := GetFrom(repo, league, team, season, from, to);
      if fetched.Nil? {
        return Of([]);
      }
      if cache.ApiSource? && cache.apiRepo.rdb != null {
        var _ := cache.apiRepo.SetFixturesCache(league, team, season, from, to, fetched.Elems());
      }
      r := fetched;
    }
  }

  /** A non-empty cache answer is the answer; only the cache's own write-back happens. */
  lemma HitAnswer(cv: StoreView, rv: StoreView, shared: bool, cache: FixtureSource, repo: FixtureSource,
                  league: string, team: string, season: string, from: string, to: string)
    requires |SourceAnswer(cv, cache, league, team, season, from, to).Elems()| > 0
    ensures FixturesAnswer(cv, rv, shared, cache, repo, league, team, season, from, to) == SourceAnswer(cv, cache, league, team, season, from, to)
    ensures CacheViewAfter(cv, rv, cache, repo, league, team, season, from, to) == SourceViewAfter(cv, cache, league, team, season, from, to)
    ensures RepoViewAfter(cv, rv, cache, repo, league, team, season, from, to) == rv
  {
  }

  /** After an empty cache answer, the answer is the repo's, never nil. */
  lemma MissAnswer(cv: StoreView, rv: StoreView, shared: bool, cache: FixtureSource, repo: FixtureSource,
                   league: string, team: string, season: string, from: string, to: string)
    requires |SourceAnswer(cv, cache, league, team, season, from, to).Elems()| == 0
    ensures FixturesAnswer(cv, rv, shared, cache, repo, league, team, season, from, to) ==
      UsecaseAnswer(Of([]), SourceAnswer(RepoView(cv, rv, shared, cache, league, team, season, from, to), repo, league, team, season, from, to))
    ensures RepoViewAfter(cv, rv, cache, repo, league, team, season, from, to) == SourceViewAfter(rv, repo, league, team, season, from, to)
    ensures CacheViewAfter(cv, rv, cache, repo, league, team, season, from, to) ==
      (var fetched := SourceAnswer(rv, repo, league, team, season, from, to);
       var v1 := SourceViewAfter(cv, cache, league, team, season, from, to);
       if WritesBack(cache, Of([]), fetched)
       then SetView(v1, FixturesKey(league, team, season, from, to), EncodeFixtures(fetched.Elems()), FiveMinutes)
       else v1)
  {
  }

  /** Each source's answer depends only on its own store: with separate stores the cache call does not affect the repo's. */
  lemma SeparateStoresIndependent(cv: StoreView, rv: StoreView, cache: FixtureSource,
                                  league: string, team: string, season: string, from: string, to: string)
    ensures RepoView(cv, rv, false, cache, league, team, season, from, to) == rv
  {
  }

  /**
   * With separate stores, a repo answer copied into an online APIRepo cache is what
   * the next identical request gets from the cache, so the repo is not asked again.
   */
  lemma WriteBackServesNextRequest(cv: StoreView, rv: StoreView, cache: FixtureSource, repo: FixtureSource,
                                   league: string, team: string, season: string, from: string, to: string)
    requires cv.View? && cv.online
    requires WritesBack(cache, SourceAnswer(cv, cache, league, team, season, from, to), SourceAnswer(rv, repo, league, team, season, from, to))
    ensures SourceAnswer(CacheViewAfter(cv, rv, cache, repo, league, team, season, from, to), cache, league, team, season, from, to)
         == SourceAnswer(rv, repo, league, team, season, from, to)
  {
    var key := FixturesKey(league, team, season, from, to);
    var fetched := SourceAnswer(rv, repo, league, team, season, from, to);
    var v1 := SourceViewAfter(cv, cache, league, team, season, from, to);
    SetFixturesCacheThenGet(v1.entries, key, fetched.Elems(), Fetched(SourceApi(cache), league, team, season, from, to));
  }

  /** A nil repo answer is served as an empty list and is not copied into the cache. */
  lemma NilAnswerNotWrittenBack(cv: StoreView, rv: StoreView, cache: FixtureSource, repo: FixtureSource,
                                league: string, team: string, season: string, from: string, to: string)
    requires |SourceAnswer(cv, cache, league, team, season, from, to).Elems()| == 0
    requires SourceAnswer(rv, repo, league, team, season, from, to).Nil?
    ensures FixturesAnswer(cv, rv, false, cache, repo, league, team, season, from, to) == Of([])
    ensures CacheViewAfter(cv, rv, cache, repo, league, team, season, from, to) == SourceViewAfter(cv, cache, league, team, season, from, to)
  {
  }

  /**
   * When both sources share a store, a cache miss whose own fetch returns an empty
   * list writes that empty list under the shared key, and the repo then serves it
   * from the store instead of asking its API.
   */
  lemma SharedStoreEmptyWriteShadowsRepo(m: Entries, cache: FixtureSource, repo: FixtureSource,
                                         league: string, team: string, season: string, from: string, to: string)
    requires FixturesKey(league, team, season, from, to) !in m
    requires Fetched(SourceApi(cache), league, team, season, from, to) == Ok([])
    ensures FixturesAnswer(View(m, true), View(m, true), true, cache, repo, league, team, season, from, to) == Of([])
  {
  }
}
