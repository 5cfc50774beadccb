# Ethio-football backend: cache-aside data layer and intent dispatcher

This project models the core of the Go backend of an Ethiopian football chat
assistant in Dafny. The core is made of these parts:

- **Team repository.** It keeps teams in Redis in three forms:
  - a hash per team at `team:<id>`;
  - a JSON catalog blob per league and season at `teams:<league>:<season>`;
  - a plain name-to-ID key.
- **Fixture repositories.** They cache upstream fixture lists under
  `fixtures:<league>:<team>:<season>:<from>:<to>`. They also keep round fixtures at
  `pf:<league>:<season>:<round>` and round windows at `<league>:<season>:<round>`.
- **Team use case.** It runs the statistics cache-aside and the cold-cache hydration
  of `GetTeamByID`, which walks leagues 363 and 39 and seasons 2021–2023.
- **Fixture use case.** It tries a cache source, then falls back to a repo source.
- **Upstream fixtures adapter.** This is `FetchFixturesFromAPI`.
- **HTTP handlers.**
  - The team handlers, including the catalog-seeding loop of `CacheTeams`.
  - The intent dispatcher. `POST /intent` routes a parsed question by topic and
    hands the result to an answer composer. `GET /compare` compares two teams.

How the model is built:

- **The store.** Redis is one mutable map from keys to entries (`KeyValue.Store`).
  - An entry is a blob or a field hash, with a TTL.
  - A flag stands for the connection being up or down.
  - A log records every write command.
- **JSON.** Serialisation is an abstract payload datatype. Each encoder is proved to
  round-trip through its decoder.
- **Go integer conversion.** `strconv.Atoi` and `strconv.Itoa` are modelled on 64-bit
  integers, and their round trip is proved.
- **Upstream services.** They are objects with fixed answer tables and a log of the
  calls made to them. This lets contracts state "a hit makes no upstream call" and
  "exactly one write-back".
- **Stateful code is written as it is in Go.** Each repository and use case is a
  class, and its methods are proved against specification functions of the state
  before the call. Each loop (`SaveAllTeams`, `GetTeamByID`, `CacheTeams`, the news
  topic, the fixture mapping) is a `for` loop with invariants.

Files:

| file | module |
|---|---|
| domain.dfy | `Domain`: teams, fixtures, stats, errors, Go slices |
| numeric.dfy | `Numeric`: Go's `strconv.Atoi` / `strconv.Itoa` on 64-bit ints |
| keys.dfy | `Keys`: the key schemes |
| json.dfy | `Json`: payloads and the encode/decode pairs |
| store.dfy | `KeyValue`: the Redis store |
| upstream.dfy | `Upstream`: the sports API and `FetchFixturesFromAPI` |
| team_repo.dfy | `TeamRepository`: `teamRepo` |
| fixture_repos.dfy | `FixtureRepositories`: `APIRepo`, `FixturesRepo` |
| team_usecase.dfy | `TeamUsecases`: `TeamUsecase` |
| fixture_usecase.dfy | `FixtureUsecases`: `fixtureUsecase` |
| team_controller.dfy | `TeamControllers`: `TeamController` |
| intent_controller.dfy | `IntentControllers`: `IntentController` |
| http.dfy | `Http`: status codes and responses |

### Notes on the code

- **Fixture cache lifetime.** The two fixture caches expire differently. `FixturesRepo.GetFixtures`
  keeps a fixture set for seven days (`backend/Repository/fixtures_repo.go:120`).
  `APIRepo.GetFixtures` and `SetFixturesCache` keep one for five minutes
  (`backend/Repository/repo.go:226`, `repo.go:244`).
- **The EPL league code.** The doc comment of `FetchFixturesFromAPI` says "EPL" maps
  to 46. The code maps it to 39 (`backend/Infrastructure/infra.go:59-60`). The model
  follows the code.
- **Point and batch reads.** The per-team hash has two spellings of its ID field.
  `SaveTeamByID` and `SaveAllTeams` write `"id"`, while `Add` writes `"ID"`.
  `Get` reads `"ID"` and `GetTeamByID` reads `"id"`. So each writer/reader pair
  round-trips, and mixing pairs loses the ID. The lemmas `AddThenGetByIDLosesID`,
  `SaveByIDThenGetLosesID` and `AddThenGetTeamLosesID` state this.

## Model

| member | source | states |
|---|---|---|
| Numeric.Atoi | backend/Repository/repo.go:81-85 | a parsed value is a 64-bit integer, and only a non-empty string parses |
| Numeric.AtoiOrZero | backend/Delivery/Controller/intent_controller.go:189-190 | the value with the discarded error stays in 64-bit range and equals Atoi's value whenever Atoi succeeds; when Atoi fails it is 0 or the bound of the sign (the smallest int64 after a minus, the largest otherwise) |
| Numeric.OverflowBeforeSyntaxError | backend/Delivery/Controller/intent_controller.go:189-190 | a digit run past 2^64-1 fails to parse whatever follows it, and the discarded-error value is the largest int64: the range error is reported before a later syntax error |
| Numeric.NegativeOverflowBeforeSyntaxError | backend/Delivery/Controller/intent_controller.go:189-190 | the same after a minus sign, with the smallest int64 |
| Numeric.SyntaxErrorGivesZero | backend/Delivery/Controller/intent_controller.go:189-190 | a digit run within 2^64-1 followed by a non-digit fails to parse, and the discarded-error value is 0 |
| Numeric.TwentyNinesThenJunk | backend/Delivery/Controller/intent_controller.go:189-190 | "99999999999999999999x" gives the largest int64, not 0 |
| Numeric.AtoiItoa | backend/Repository/repo.go:161-166 | Atoi of the text Itoa prints is the number itself, so the IDs the use case prints parse back when SaveAllTeams hashes them |
| Numeric.ItoaInjective | backend/Repository/repo.go:89 | distinct numbers print differently |
| Numeric.AtoiAcceptsLeadingZeros | backend/Delivery/Controller/team_controller.go:27 | Atoi accepts "007" as 7, while Itoa(7) is not "007" |
| Keys.TeamKeyFor | backend/Repository/repo.go:89 | the numeric key "team:%d" is the raw-ID key "team:"+id of the printed number |
| Keys.TeamKeyForInjective | backend/Repository/repo.go:111 | two numeric team keys are equal exactly when the IDs are |
| Keys.PrefixedKeysDisjoint | backend/Repository/repo.go:199-201 | team, catalog, fixtures-cache and round keys never collide with one another |
| Keys.WindowKeyCanCollideWithRoundKey | backend/Repository/fixtures_repo.go:44-46 | the unprefixed window key of league "pf:ETH" equals the round key of league "ETH" |
| Json.DecodeTeams | backend/Repository/repo.go:139-142 | decoding fails only with DecodeFailed, and an encoded team list decodes to itself |
| Json.DecodeFixtures | backend/Repository/repo.go:209-212 | JSON null, and only null, decodes to a nil slice; failure is DecodeFailed |
| Json.DecodeRounds | backend/Repository/fixtures_repo.go:74-77 | an encoded round list decodes to itself; failure is DecodeFailed |
| Json.DecodeWindow | backend/Repository/fixtures_repo.go:87-94 | an encoded window decodes to its from and to; failure is DecodeFailed |
| Json.EncodeTeams | backend/Repository/repo.go:150-153 | the team list round-trips through DecodeTeams |
| Json.EncodeFixtures | backend/Repository/repo.go:225-226 | the fixture list round-trips through DecodeFixtures as a non-nil slice |
| Json.EncodeRounds | backend/Repository/fixtures_repo.go:33-36 | the round list round-trips through DecodeRounds |
| Json.EncodeWindow | backend/Repository/fixtures_repo.go:48-56 | the {from, to} object round-trips through DecodeWindow |
| KeyValue.GetOf | backend/Repository/repo.go:73-79 | GET succeeds exactly on a blob with the connection up, and returns its payload; a missing key is redis.Nil |
| KeyValue.SetOf | backend/Repository/repo.go:155 | after SET the key reads back the payload with the new TTL, and every other key reads as before; with the connection down nothing changes |
| KeyValue.HGetAllOf | backend/Repository/repo.go:25-31 | HGETALL succeeds exactly when the connection is up and the key is not a blob; a missing key reads as no fields |
| KeyValue.HSetOf | backend/Repository/repo.go:55-62 | after a successful HSET every written field reads back; other keys are untouched; a failed HSET changes nothing |
| KeyValue.ExistsOf | backend/Repository/repo.go:46-53 | EXISTS succeeds exactly when the connection is up and reports whether the key is present |
| KeyValue.ExpireOf | backend/Repository/repo.go:67 | EXPIRE sets the TTL of an existing key and changes nothing else, and never adds or removes a key |
| KeyValue.Store.Get | backend/Repository/repo.go:73 | the GET command returns GetOf of the current entries |
| KeyValue.Store.Set | backend/Repository/repo.go:155 | the entries become SetOf of the old ones, and one SET is logged |
| KeyValue.Store.HGetAll | backend/Repository/repo.go:25 | the HGETALL command returns HGetAllOf of the current entries |
| KeyValue.Store.HSet | backend/Repository/repo.go:55-62 | the entries become HSetOf of the old ones, and one HSET is logged |
| KeyValue.Store.Exists | backend/Repository/repo.go:46 | the EXISTS command returns ExistsOf of the current entries |
| KeyValue.Store.Expire | backend/Repository/repo.go:67 | the entries become ExpireOf of the old ones, and one EXPIRE is logged |
| Upstream.SportsApi.GetTeams | backend/Usecase/usecase.go:92 | answers from the teams table and logs exactly one teams call |
| Upstream.SportsApi.Statistics | backend/Usecase/usecase.go:53 | answers from the statistics table and logs exactly one statistics call |
| Upstream.ResolveLeague | backend/Infrastructure/infra.go:57-70 | "EPL" is 39 and "ETH" is 363; any other code is an UnknownLeague error exactly when it is not a numeric string |
| Upstream.NumericLeagueResolves | backend/Infrastructure/infra.go:64-67 | every printed 64-bit league ID resolves to itself |
| Upstream.QueryFor | backend/Infrastructure/infra.go:74-93 | league is always present; from, to and season are present exactly when non-empty; team is present exactly when non-empty and numeric; values are copied unchanged |
| Upstream.BuildQuery | backend/Infrastructure/infra.go:74-93 | setting the parameters one by one yields QueryFor |
| Upstream.MappedFixtures | backend/Infrastructure/infra.go:136-152 | one fixture per response item, in order: ID and DateUTC are the item's date, status is "scheduled", names and logos are copied, and all share one LastUpdated |
| Upstream.MapFixtures | backend/Infrastructure/infra.go:139-152 | the mapping loop yields MappedFixtures |
| Upstream.FetchOf | backend/Infrastructure/infra.go:51-156 | a missing API key is an error, checked first; an unknown league code is an error; success means the reply had status below 400 and a decodable body, and the result is its mapped fixtures |
| Upstream.FixtureApi.FetchFixtures | backend/Infrastructure/infra.go:51-156 | returns FetchOf; one request is logged unless the key or league check failed first |
| TeamRepository.TeamFromFields | backend/Repository/repo.go:33-40 | reading back the fields a team was written with gives the team, whatever else the hash holds |
| TeamRepository.ReadTeam | backend/Repository/repo.go:23-42 | a store error is InternalServer; NotFound happens exactly when the hash is empty; otherwise the team is built from the hash fields |
| TeamRepository.AddResult | backend/Repository/repo.go:44-65 | Add is refused with DuplicateFound exactly when the key exists, and passes exactly when the connection is up and the key is free |
| TeamRepository.AddState | backend/Repository/repo.go:55-69 | a failed Add changes nothing; a successful Add stores exactly the "ID"-named hash with a seven-day TTL |
| TeamRepository.GetIDOf | backend/Repository/repo.go:72-86 | errors are NotFound or InternalServer, and NotFound happens exactly when the store is up and the name has no key |
| TeamRepository.GetIDOfCachedNumber | backend/Repository/repo.go:72-86 | a name cached with a printed number resolves to that number |
| TeamRepository.GetAllTeamsOf | backend/Repository/repo.go:129-145 | errors are NotFound or InternalServer, and NotFound happens exactly when the store is up and the catalog key is missing |
| TeamRepository.HashTeamsFrame | backend/Repository/repo.go:159-179 | the per-team writes leave every non-team key as it was and never create or remove a blob |
| TeamRepository.AddThenGet | backend/Repository/repo.go:23-70 | after a successful Add, Get on the same ID returns the team that was added |
| TeamRepository.SaveByIDThenGetByID | backend/Repository/repo.go:88-127 | SaveTeamByID(n, t) then GetTeamByID(n) returns t |
| TeamRepository.AddThenGetByIDLosesID | backend/Repository/repo.go:44-108 | a team written by Add and read by GetTeamByID comes back with an empty ID |
| TeamRepository.SaveByIDThenGetLosesID | backend/Repository/repo.go:23-127 | a team written by SaveTeamByID and read by Get comes back with an empty ID |
| TeamRepository.SaveAllThenGetAll | backend/Repository/repo.go:129-182 | after SaveAllTeams, GetAllTeams for the same league and season returns the same list |
| TeamRepository.SaveAllThenGetByID | backend/Repository/repo.go:147-182 | after the per-team writes of SaveAllTeams, GetTeamByID(n) returns the last listed team whose ID parses as n, unless that key held a blob |
| TeamRepository.SaveAllLastThenGetByID | backend/Repository/repo.go:160-179 | when the last listed team carries ID n and `team:<n>` did not hold a blob, GetTeamByID(n) returns it after the per-team writes (a blob there makes the HSET fail with WRONGTYPE) |
| TeamRepository.TeamRepo.Get | backend/Repository/repo.go:23-42 | returns the spec answer of Get over the current store |
| TeamRepository.TeamRepo.Add | backend/Repository/repo.go:44-70 | the result, the new store and the logged commands are AddResult, AddState and AddLog: EXISTS, then HSET and EXPIRE only for a new key |
| TeamRepository.TeamRepo.GetID | backend/Repository/repo.go:72-86 | returns GetIDOf over the current store |
| TeamRepository.TeamRepo.GetTeamByID | backend/Repository/repo.go:88-108 | returns the spec answer of GetTeamByID over the current store |
| TeamRepository.TeamRepo.SaveTeamByID | backend/Repository/repo.go:110-127 | writes one "id"-named hash at "team:%d"; a failed HSET is InternalServer |
| TeamRepository.TeamRepo.GetAllTeams | backend/Repository/repo.go:129-145 | returns GetAllTeamsOf over the current store |
| TeamRepository.TeamRepo.SaveAllTeams | backend/Repository/repo.go:147-182 | only the catalog SET can fail the call; on success the catalog blob has no expiry and is followed by one HSET per numeric ID |
| TeamRepository.TeamRepo.SaveEachTeam | backend/Repository/repo.go:159-179 | the loop writes one hash per team with a numeric ID, in list order, skipping the others and ignoring failures |
| TeamUsecases.LeagueCodesNamed | backend/Usecase/usecase.go:155-164 | 363 and 39 are named "Ethiopian Premier League" and "English Premier League"; every other ID is "Unknown League" |
| TeamUsecases.ToTeamIDRoundTrip | backend/Usecase/usecase.go:100-101 | a converted team's ID is the printed API ID and parses back to it |
| TeamUsecases.CatalogOf | backend/Usecase/usecase.go:98-109 | one team per API entry, in order, with the printed ID, the name and logo copied, an empty Short, the league's name and the bio "Founded: <year>, Country: <country>" |
| TeamUsecases.FoundedYearInBio | backend/Usecase/usecase.go:106 | the bio prints the founding year, or 0 when the API gives none |
| TeamUsecases.Catalog | backend/Usecase/usecase.go:99-109 | the conversion loop yields CatalogOf |
| TeamUsecases.FindByIDIsFirst | backend/Usecase/usecase.go:115-119 | the scan finds nothing exactly when no team has the ID, and otherwise finds the first team that has it |
| TeamUsecases.FindTeam | backend/Usecase/usecase.go:115-119 | the scan loop returns FindByID |
| TeamUsecases.TeamRepoExtras.GetTeamStats | backend/Domain/repo_interfaces.go:15 | answers from the stats table and logs the read; nothing else changes |
| TeamUsecases.TeamRepoExtras.SaveTeamStats | backend/Domain/repo_interfaces.go:16 | logs exactly one save; nothing else changes |
| TeamUsecases.TeamRepoExtras.CacheTeamID | backend/Domain/repo_interfaces.go:17 | logs exactly one name-to-ID pair; nothing else changes |
| TeamUsecases.StatisticsByIDOf | backend/Usecase/usecase.go:65-80 | cached stats are returned as they are; otherwise the API's answer, error included, is returned |
| TeamUsecases.StatisticsOf | backend/Usecase/usecase.go:41-61 | any failure to resolve the name is InternalServer; otherwise the answer is StatisticsByID's for the resolved ID |
| TeamUsecases.StatisticsByCachedName | backend/Usecase/usecase.go:41-53 | Statistics on a name cached with ID n equals StatisticsByID on n |
| TeamUsecases.StatisticsErrors | backend/Usecase/usecase.go:43-56 | every Statistics error is InternalServer or the API's own error for the resolved ID |
| TeamUsecases.SearchFoundIsFirstHit | backend/Usecase/usecase.go:90-121 | the search finds nothing exactly when no pair yields the team, and otherwise returns the team of the first pair that does |
| TeamUsecases.SearchCallsFollowPairs | backend/Usecase/usecase.go:87-95 | the API is asked about the pairs in order, each at most once, and about all six when nothing is found |
| TeamUsecases.SearchStopsAtHit | backend/Usecase/usecase.go:114-119 | a successful search makes its last API call for the pair that yielded the team |
| TeamUsecases.SearchFoundHasID | backend/Usecase/usecase.go:115-117 | a team the search finds carries the printed requested ID |
| TeamUsecases.IdPairs | backend/Usecase/usecase.go:144-146 | one (name, ID) pair per converted team, in catalog order |
| TeamUsecases.FetchedTeamReadableByID | backend/Usecase/usecase.go:111-112 | after a fetched catalog is saved, GetTeamByID finds each of its teams by API ID, unless a later entry repeats the ID or that key held a blob |
| TeamUsecases.HitStepCachesTeam | backend/Usecase/usecase.go:111-118 | the pair that yields the team caches it where GetTeamByID reads it |
| TeamUsecases.SearchCachesFoundTeam | backend/Usecase/usecase.go:90-121 | when no API catalog repeats an ID and `team:<id>` holds no blob, after a search that found a team the store serves that team by ID |
| TeamUsecases.TeamByIDUpstreamHasID | backend/Usecase/usecase.go:82-124 | a team not found in the store comes from the search and carries the printed requested ID |
| TeamUsecases.TeamByIDThenCached | backend/Usecase/usecase.go:82-86 | with the store up, no API catalog repeating an ID and no blob at `team:<id>`, once a team was found a second GetTeamByID gives the same answer with no API call and no write |
| TeamUsecases.TeamUsecase.GetTeam | backend/Usecase/usecase.go:33-35 | delegates to the repository's Get |
| TeamUsecases.TeamUsecase.AddTeam | backend/Usecase/usecase.go:37-39 | delegates to the repository's Add, with its result, state and writes |
| TeamUsecases.TeamUsecase.StatisticsByID | backend/Usecase/usecase.go:65-80 | one stats read; the API is called exactly when nothing is cached; exactly one save, only after a successful fetch |
| TeamUsecases.TeamUsecase.Statistics | backend/Usecase/usecase.go:41-61 | on a resolution error nothing is read, fetched or saved; otherwise it behaves as StatisticsByID on the resolved ID |
| TeamUsecases.TeamUsecase.GetTeamByID | backend/Usecase/usecase.go:82-124 | a cache hit changes nothing and calls nothing; otherwise the pairs are searched in order, each fetched catalog is saved, and the first match or NotFound is returned |
| TeamUsecases.TeamUsecase.SearchLeagues | backend/Usecase/usecase.go:90-123 | the league loop performs the search over all six pairs |
| TeamUsecases.TeamUsecase.SearchLeague | backend/Usecase/usecase.go:91-120 | the season loop over one league either stops at its hit or hands the rest of the search to the next league |
| TeamUsecases.TeamUsecase.SearchPair | backend/Usecase/usecase.go:92-119 | one pair: exactly one teams call, its catalog saved when fetched, and the first team with the ID returned |
| TeamUsecases.TeamUsecase.FetchAndCacheTeams | backend/Usecase/usecase.go:126-151 | an upstream error is returned with nothing cached; otherwise every team's name and ID go to CacheTeamID and the result is SaveAllTeams' |
| FixtureRepositories.CacheHit | backend/Repository/repo.go:207-215 | a decodable cached list is a hit, a cached null is a nil hit, and an undecodable entry is a miss |
| FixtureRepositories.ServeFixtures | backend/Repository/repo.go:203-231 | a hit is served as it is; after a miss the fetched list is served, or an empty list on failure; only a cached null gives nil |
| FixtureRepositories.WriteBack | backend/Repository/repo.go:223-228 | only a miss followed by a successful fetch writes, under the query's key with the given TTL; other keys are untouched |
| FixtureRepositories.CacheAside | backend/Repository/repo.go:203-231 | the answer is ServeFixtures; the API is asked only on a miss; the store gets only the WriteBack |
| FixtureRepositories.WriteBackThenHit | backend/Repository/repo.go:206-228 | after a write-back the same query is a hit serving the same list, whatever the API would answer |
| FixtureRepositories.FetchFailureServesEmpty | backend/Repository/repo.go:217-221 | a failed fetch is served as an empty, non-nil list and writes nothing |
| FixtureRepositories.CachedNullServesNil | backend/Repository/repo.go:208-212 | a cached null is served as nil, which no path through the API gives |
| FixtureRepositories.APIRepo.GetFixtures | backend/Repository/repo.go:203-231 | the cache-aside read with a five-minute TTL; without a store it always asks the API |
| FixtureRepositories.APIRepo.SetFixturesCache | backend/Repository/repo.go:234-245 | without a store nothing happens; otherwise one SET of the list for five minutes |
| FixtureRepositories.SetFixturesCacheThenGet | backend/Repository/repo.go:203-245 | after SetFixturesCache, GetFixtures serves that list from the cache |
| FixtureRepositories.RoundsOf | backend/Repository/fixtures_repo.go:65-79 | a missing key is redis.Nil; a stored round list is returned; success needs a blob at the round key |
| FixtureRepositories.WindowOf | backend/Repository/fixtures_repo.go:81-95 | a missing key is redis.Nil; a stored window is returned as (from, to) |
| FixtureRepositories.SaveRoundsThenGet | backend/Repository/fixtures_repo.go:31-79 | SaveFixturesByRound then GetFixturesByRound returns the saved list |
| FixtureRepositories.SaveWindowThenGet | backend/Repository/fixtures_repo.go:45-95 | SaveRoundWindow(q) then GetRoundWindow(q) returns (q.From, q.To) |
| FixtureRepositories.SaveRoundsKeepsWindow | backend/Repository/fixtures_repo.go:31-62 | saving rounds leaves every window whose key differs from the round key unchanged |
| FixtureRepositories.WindowSaveCanClobberRounds | backend/Repository/fixtures_repo.go:30-75 | a window saved for league "pf:ETH" overwrites the ETH round list, which then fails to decode |
| FixtureRepositories.FixturesRepo.SaveFixturesByRound | backend/Repository/fixtures_repo.go:31-42 | one SET of the encoded list at "pf:%s:%d:%s" with no expiry |
| FixtureRepositories.FixturesRepo.SaveRoundWindow | backend/Repository/fixtures_repo.go:45-62 | one SET of {from, to} at "%s:%d:%s" with no expiry |
| FixtureRepositories.FixturesRepo.GetFixturesByRound | backend/Repository/fixtures_repo.go:65-79 | returns RoundsOf the current store |
| FixtureRepositories.FixturesRepo.GetRoundWindow | backend/Repository/fixtures_repo.go:81-95 | both strings are empty on any error; otherwise the stored window |
| FixtureRepositories.FixturesRepo.GetFixtures | backend/Repository/fixtures_repo.go:97-125 | the cache-aside read with a seven-day TTL; with no store the API is asked every time and nothing is cached |
| FixtureUsecases.GetFrom | backend/Usecase/usecase.go:195 | a call through the FixtureRepo interface behaves as the chosen implementation's GetFixtures |
| FixtureUsecases.UsecaseAnswer | backend/Usecase/usecase.go:195-212 | the answer is never nil: a non-empty cache answer as it is, else the repo's fixtures |
| FixtureUsecases.FixtureUsecase.GetFixtures | backend/Usecase/usecase.go:189-224 | an empty league is rejected before either source is asked; otherwise the answer and both stores follow Served; after a non-empty cache answer the upstream log holds only the cache's own request (none on a cache hit, one on a miss), so with the one upstream both repos share the repo adds no request, and with two upstreams the repo's is left as it was |
| FixtureUsecases.FixtureUsecase.Serve | backend/Usecase/usecase.go:194-223 | the cache is asked first, and the repo only after an empty cache answer: after a non-empty cache answer the cache's upstream log gains only the cache's own request (none on a hit, one on a miss), whether or not the repo shares that upstream; with two upstreams, the repo's is left as it was |
| FixtureUsecases.FixtureUsecase.Fallback | backend/Usecase/usecase.go:203-223 | the repo's answer is served, and it is copied into the cache only when the cache is an APIRepo with a store and the answer is not nil |
| FixtureUsecases.HitAnswer | backend/Usecase/usecase.go:195-199 | a non-empty cache answer is the answer, and the repo's store is untouched |
| FixtureUsecases.MissAnswer | backend/Usecase/usecase.go:201-221 | after an empty cache answer the repo answers, with the copy into the cache as the only extra write |
| FixtureUsecases.SeparateStoresIndependent | backend/Usecase/usecase.go:195-204 | with separate stores the repo sees its store as it was before the cache call |
| FixtureUsecases.WriteBackServesNextRequest | backend/Usecase/usecase.go:214-221 | a repo answer copied into an online APIRepo cache is what the next identical request gets from the cache |
| FixtureUsecases.NilAnswerNotWrittenBack | backend/Usecase/usecase.go:210-212 | a nil repo answer is served as an empty list and is not copied |
| FixtureUsecases.SharedStoreEmptyWriteShadowsRepo | backend/Usecase/usecase.go:195-204 | when both sources share a store, an empty fetch written by the cache shadows the repo, so the answer is empty |
| TeamControllers.GetTeamStatuses | backend/Delivery/Controller/team_controller.go:21-41 | 400 exactly for a malformed ID, 404 exactly for a lookup failure, and 200 exactly for a found team, carrying that team |
| TeamControllers.GetTeamUpstreamAnswersAskedID | backend/Delivery/Controller/team_controller.go:34-40 | a team fetched upstream is answered under the canonical spelling of the requested ID |
| TeamControllers.GetTeamIgnoresLeadingZeros | backend/Delivery/Controller/team_controller.go:26-31 | "007" and "7" get the same response |
| TeamControllers.AddThenGetTeamLosesID | backend/Delivery/Controller/team_controller.go:21-60 | a team added through POST /teams comes back from GET /teams/:id with an empty ID |
| TeamControllers.AddTeamOutcomes | backend/Delivery/Controller/team_controller.go:43-60 | a duplicate is a 500 carrying DuplicateFound, a store failure a 500 with InternalServer, and a 200 happens exactly when the team was stored |
| TeamControllers.FirstFailureIsFirst | backend/Delivery/Controller/team_controller.go:71-81 | seeding reports no failure exactly when every pair passes, and otherwise names the first pair that fails, with its error |
| TeamControllers.SeedCallsFollowPairs | backend/Delivery/Controller/team_controller.go:68-81 | the API is asked about the pairs in order, each at most once, and about all six when none fails |
| TeamControllers.SeedStopsAtFailure | backend/Delivery/Controller/team_controller.go:73-79 | the last API call of a failing seeding is for the pair it reports; later pairs are not attempted |
| TeamControllers.OfflineSeedingStopsAtFirstPair | backend/Delivery/Controller/team_controller.go:71-79 | with the store down, seeding is a 500 for (363, 2021) after one call, and it changes nothing |
| TeamControllers.SeedCachesLastCatalog | backend/Delivery/Controller/team_controller.go:71-87 | after a seeding where every pair passes, GetAllTeams reads back the last pair's catalog |
| TeamControllers.SeedOnePair | backend/Usecase/usecase.go:126-151 | a passing pair has its catalog saved where GetAllTeams reads it |
| TeamControllers.TeamController.GetTeam | backend/Delivery/Controller/team_controller.go:21-41 | a malformed ID is answered with no lookup; otherwise GetTeamByID's effects and response mapping |
| TeamControllers.TeamController.AddTeam | backend/Delivery/Controller/team_controller.go:43-60 | a body that does not bind changes nothing; otherwise Add's effects and response mapping |
| TeamControllers.TeamController.CacheTeams | backend/Delivery/Controller/team_controller.go:65-88 | FetchAndCacheTeams runs over the six pairs in order and stops at the first failure, whose pair and error the 500 names |
| TeamControllers.TeamController.SeedAllLeagues | backend/Delivery/Controller/team_controller.go:71-87 | the league loop reports the first failing pair, and leaves the store, the logs and the ID cache as seeding the six pairs up to it does |
| TeamControllers.TeamController.SeedLeague | backend/Delivery/Controller/team_controller.go:72-80 | the season loop of one league either stops at its failure or hands the rest of the seeding to the next league |
| IntentControllers.LeagueIDOf | backend/Delivery/Controller/intent_controller.go:72-79 | the ID is 363 exactly for "ETH", 39 exactly for "EPL", and 0 for every other code |
| IntentControllers.LeagueIDAgreesWithAdapter | backend/Delivery/Controller/intent_controller.go:74-79 | on the codes it knows, the dispatcher and the fixtures adapter agree |
| IntentControllers.UnknownCodeBecomesZero | backend/Delivery/Controller/intent_controller.go:72-79 | an unknown code, which the adapter rejects, becomes league 0 in the dispatcher |
| IntentControllers.Successes | backend/Delivery/Controller/intent_controller.go:110-123 | no more news items than generators |
| IntentControllers.SuccessesAreTheOks | backend/Delivery/Controller/intent_controller.go:110-123 | an item is kept exactly when some generator returned it |
| IntentControllers.SuccessesConcat | backend/Delivery/Controller/intent_controller.go:110-123 | kept items from consecutive generators keep their call order |
| IntentControllers.SuccessesAllOrNone | backend/Delivery/Controller/intent_controller.go:110-123 | nothing is dropped exactly when every generator succeeds, and everything is dropped when all fail |
| IntentControllers.TwoOfFourNewsFail | backend/Delivery/Controller/intent_controller.go:110-123 | with two generators failing, the data is the other two items in call order |
| IntentControllers.ContextFor | backend/Delivery/Controller/intent_controller.go:159-166 | the context has exactly the one key "data", source "api", the intent's topic and language, and the given freshness |
| IntentControllers.CompareLookups | backend/Delivery/Controller/intent_controller.go:126-145 | at most two teams are looked up |
| IntentControllers.ParseFailureStatus | backend/Delivery/Controller/intent_controller.go:56-66 | a parse error is a 400 exactly for invalid input and a 500 otherwise, with only the parser called and no statistics looked up |
| IntentControllers.ComposedContext | backend/Delivery/Controller/intent_controller.go:159-175 | when the topic proceeds, the last call is Compose on the topic's context; 200 exactly when Compose succeeds, carrying its answer, and 500 otherwise |
| IntentControllers.ComposeOnlyAfterProceed | backend/Delivery/Controller/intent_controller.go:81-176 | Compose is called exactly when the topic did not end the request, and a topic that ended it gives its own response |
| IntentControllers.NoComposeInTopicCalls | backend/Delivery/Controller/intent_controller.go:81-157 | no topic calls the composer |
| IntentControllers.StatisticsCallsPerName | backend/Delivery/Controller/intent_controller.go:134-141 | one Statistics call per looked-up name, in order, for season 2022 |
| IntentControllers.FixtureTopicNeverHalts | backend/Delivery/Controller/intent_controller.go:82-98 | the fixture topic queries round "1" of 2022; a lookup error proceeds with no data, and a success with a one-element list |
| IntentControllers.TableErrorIsFatal | backend/Delivery/Controller/intent_controller.go:100-107 | a standings error is the 500 "Error while fetching standings", and Compose is never called |
| IntentControllers.CompareNeedsTwoTeams | backend/Delivery/Controller/intent_controller.go:126-129 | fewer than two teams is a 400 before any lookup |
| IntentControllers.CompareTeamAFails | backend/Delivery/Controller/intent_controller.go:134-139 | a team-A failure is the team-A 500, and team B is never looked up |
| IntentControllers.CompareTeamBFails | backend/Delivery/Controller/intent_controller.go:141-145 | a team-B failure is the distinct team-B 500, after both lookups |
| IntentControllers.CompareBothFound | backend/Delivery/Controller/intent_controller.go:131-150 | two successful lookups give the comparison of the first two teams |
| IntentControllers.CompareUnknownNameNoUpstream | backend/Delivery/Controller/intent_controller.go:134-139 | a team A whose name has no cached ID ends the request with no stats read, API call or save |
| IntentControllers.NewsTopicData | backend/Delivery/Controller/intent_controller.go:109-123 | the news topic never halts, its data holds an item exactly when a generator returned it, and the list is nil exactly when all four generators fail |
| IntentControllers.FactAndUnknownTopics | backend/Delivery/Controller/intent_controller.go:151-157 | the fact topic passes the teams through with no call; an unknown topic is a 400 with no lookup |
| IntentControllers.CompareLeague | backend/Delivery/Controller/intent_controller.go:184-200 | an error happens exactly when a parameter is empty or the league is neither ETH nor EPL; otherwise the dispatcher's league ID, never 0 |
| IntentControllers.HandleCompareValidatesFirst | backend/Delivery/Controller/intent_controller.go:184-200 | a missing parameter gives "two teams are needed", an unknown league gives "unsupported league", and a 400 happens exactly when no lookup was made |
| IntentControllers.IntentCompareMatchesHandleCompare | backend/Delivery/Controller/intent_controller.go:178-222 | for league ETH or EPL, with the store up, two distinct names and the names cached as their IDs, the compare topic and GET /compare both succeed or both fail, and on success they give the same two statistics |
| IntentControllers.IntentController.ParseIntent | backend/Delivery/Controller/intent_controller.go:44-176 | the response and the collaborator calls are ParseIntentResponse and ParseIntentCalls; the statistics logs grow only by the looked-up names; the team store is not written |
| IntentControllers.IntentController.AnswerIntent | backend/Delivery/Controller/intent_controller.go:70-176 | the league switch, the topic and the composer, in that order |
| IntentControllers.IntentController.RunTopic | backend/Delivery/Controller/intent_controller.go:81-157 | the topic switch yields TopicOutcome with exactly the topic's calls |
| IntentControllers.IntentController.GatherNews | backend/Delivery/Controller/intent_controller.go:109-123 | the four generators are called in order, and the items are the successes appended in order to a nil slice |
| IntentControllers.IntentController.CompareTeams | backend/Delivery/Controller/intent_controller.go:125-150 | Statistics for team A, then for team B only if A succeeded; each failure ends the request |
| IntentControllers.IntentController.HandleCompare | backend/Delivery/Controller/intent_controller.go:178-223 | validation first, with nothing looked up on failure; then StatisticsByID for team A, and for team B only if A succeeded |

## Left out

- `RedisConnect` (`backend/Infrastructure/infra.go:19-40`) is not modelled. It reads the environment, dials the server and panics on a failed ping. The model takes the store as already connected, or down.
- In `FetchFixturesFromAPI`, the model leaves out:
  - the HTTP request construction, the headers and the 12-second timeout;
  - reading the body and the JSON decoding.
  The model keeps the query that is sent as a map and uses a table from query to reply (status plus optional items). A missing reply is a transport error.
  Each `FixtureApi` has one fixed table and one `now`. So when one request asks the same upstream twice, both calls get the same answer and the same `LastUpdated`. That happens when the cache and repo sources have separate stores and both miss. In Go these are two HTTP calls (`backend/Repository/repo.go:218`, `backend/Repository/fixtures_repo.go:112`): the first can fail while the second succeeds, and their timestamps differ. The model does not capture that case.
- `FetchFixturesFromAPI`'s `time.Now()` timestamp, and the `Freshness` timestamp of `ParseIntent`, are parameters of the model.
- TTL expiry is not modelled. TTLs are recorded on entries, and no entry ever expires.
- The answer composer (`backend/Infrastructure/ai_answer_composer.go`) is not part of this model. `Compose` is an uninterpreted function of the context.
- These collaborators' implementations are not part of this model: intent parsing, `GetCachedByRound`, standings, and the four news generators. Each is a fixed function or result in `Services` with no assumed behaviour.
- `GetTeamStats`, `SaveTeamStats` and `CacheTeamID` are not part of this model. They are `TeamRepoExtras`: the stats cache is a fixed table plus logs of the calls. So a saved stat is not seen by later reads in the model.
- The logging done with `fmt.Print*` and `log.Print` is not modelled. So are gin's request binding and JSON rendering: a body that does not bind is the input `None`, and a response is a status plus a body value.
- Concurrent requests, and the redundant write-backs they may cause, are not modelled. Each request runs alone.
- The frontend (`src/app`) is not part of this model.
- JSON is abstract. Decoding fails only on a payload of another shape, or on a corrupt one. `json.Marshal` never fails on these types, so the model has no marshal error path.
- Store errors are a single connection flag. A command that fails with the connection up is not modelled, except WRONGTYPE, which a hash/blob mismatch gives.
- FixtureUsecases.FixtureUsecase.GetFixtures: when the cache and repo sources share one store, the final store state is not stated. Only the answer is stated for that case, through `FixturesAnswer`.
- Json.EncodeTeams: a catalog is a plain sequence, so an API answer with no teams is stored as an empty JSON list. Go's nil slice (`backend/Usecase/usecase.go:98`, `:133`) marshals to `null` (`backend/Repository/repo.go:150-155`). `GetAllTeams` reads back no teams either way, so no reader in the core tells the two apart. Only the SET payload in `StepWrites` and `SeedWrites` differs from Go's.
- TeamUsecases.TeamRepoExtras.SaveTeamStats: the saved statistics are logged but not read back by `GetTeamStats`, whose answers come from a fixed table.
