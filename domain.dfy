/** Entities and error values shared by every layer of the football backend. */
module Domain {

  datatype Option<+T> = None | Some(value: T)

  /** The errors the Go code returns, one constructor per distinct error value. */
  datatype Error =
    | TeamNotFound                 // domain.ErrTeamNotFound
    | DuplicateFound               // domain.ErrDuplicateFound
    | InternalServer               // domain.ErrInternalServer
    | InvalidInput(msg: string)    // usecase.ErrInvalidInput and plain input errors
    | StoreNil                     // redis.Nil: the key does not exist
    | StoreDown                    // the store connection failed
    | WrongType                    // the key holds the other kind of entry
    | DecodeFailed                 // json.Unmarshal failed
    | MissingApiKey                // no upstream API key configured
    | UnknownLeague(code: string)  // league code neither known nor numeric
    | Transport                    // the HTTP round trip itself failed
    | HttpStatus(status: int)      // upstream answered with status >= 400
    | Upstream(msg: string)        // an error value produced by a collaborator

  datatype Result<+T> = Ok(value: T) | Err(error: Error)

  datatype Outcome = Pass | Fail(error: Error)

  /** A Go slice, which may be nil as well as empty. */
  datatype GoSlice<+T> = Nil | Of(elems: seq<T>) {
    function Elems(): seq<T> {
      if Nil? then [] else elems
    }
  }

  /** Go's append(s, xs...): appending nothing leaves s as it is, so a nil slice stays nil. */
  function AppendTo<T>(s: GoSlice<T>, xs: seq<T>): (r: GoSlice<T>)
    ensures r.Elems() == s.Elems() + xs
    ensures r.Nil? <==> s.Nil? && xs == []
  {
    if xs == [] then s else Of(s.Elems() + xs)
  }

  datatype Team = Team(id: string, name: string, short: string, league: string, crestUrl: string, bio: string)

  datatype Fixture = Fixture(
    id: string, dateUtc: string, homeName: string, awayName: string,
    status: string, homeLogo: string, awayLogo: string, lastUpdated: string)

  /** A past fixture as stored per round; its fields are opaque to this layer. */
  datatype PrevFixture = PrevFixture(home: string, away: string, date: string)

  datatype RoundQuery = RoundQuery(league: string, season: int, round: string, from: string, to: string)

  /** Team statistics (domain.TeamComparison); opaque to this layer. */
  datatype Stats = Stats(summary: string)

  /** One team of the upstream teams endpoint. */
  datatype TeamResp = TeamResp(id: int, name: string, logo: string, founded: Option<int>, country: string)
}
