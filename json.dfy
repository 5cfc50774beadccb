/**
 * The JSON payloads the repositories marshal into string entries, kept abstract:
 * one constructor per encoded shape, plus the JSON literal null, a plain
 * (non-JSON) string such as a cached numeric team ID, and an undecodable value.
 */
module Json {
  import opened Domain

  datatype Payload =
    | Null                               // "null", what json.Marshal makes of a nil slice
    | TeamList(teams: seq<Team>)         // []domain.Team
    | FixtureList(fixtures: seq<Fixture>) // []domain.Fixture
    | RoundList(prev: seq<PrevFixture>)  // []domain.PrevFixtures
    | WindowObject(from: string, to: string) // {"from": ..., "to": ...}
    | Text(text: string)                 // a plain string value written by Set
    | Corrupt(raw: string)               // bytes json.Unmarshal rejects

  /** json.Unmarshal into []domain.Team. */
  function DecodeTeams(p: Payload): (r: Result<seq<Team>>)
    ensures r.Err? ==> r.error == DecodeFailed
    ensures p.TeamList? ==> r == Ok(p.teams)
  {
    match p
    case TeamList(ts) => Ok(ts)
    case Null => Ok([])
    case _ => Err(DecodeFailed)
  }

  /** json.Unmarshal into []domain.Fixture; null leaves the slice nil. */
  function DecodeFixtures(p: Payload): (r: Result<GoSlice<Fixture>>)
    ensures r.Err? ==> r.error == DecodeFailed
    ensures r == Ok(Nil) <==> p == Null
  {
    match p
    case FixtureList(fs) => Ok(Of(fs))
    case Null => Ok(Nil)
    case _ => Err(DecodeFailed)
  }

  /** json.Unmarshal into []domain.PrevFixtures. */
  function DecodeRounds(p: Payload): (r: Result<seq<PrevFixture>>)
    ensures r.Err? ==> r.error == DecodeFailed
    ensures p.RoundList? ==> r == Ok(p.prev)
  {
    match p
    case RoundList(ps) => Ok(ps)
    case Null => Ok([])
    case _ => Err(DecodeFailed)
  }

  /** json.Unmarshal into struct { From, To string }; null leaves both empty. */
  function DecodeWindow(p: Payload): (r: Result<(string, string)>)
    ensures r.Err? ==> r.error == DecodeFailed
    ensures p.WindowObject? ==> r == Ok((p.from, p.to))
  {
    match p
    case WindowObject(f, t) => Ok((f, t))
    case Null => Ok(("", ""))
    case _ => Err(DecodeFailed)
  }

  // json.Marshal never fails on these types; each encoder states its round trip.

  function EncodeTeams(ts: seq<Team>): (p: Payload)
    ensures DecodeTeams(p) == Ok(ts)
  {
    TeamList(ts)
  }

  function EncodeFixtures(fs: seq<Fixture>): (p: Payload)
    ensures DecodeFixtures(p) == Ok(Of(fs))
  {
    FixtureList(fs)
  }

  function EncodeRounds(ps: seq<PrevFixture>): (p: Payload)
    ensures DecodeRounds(p) == Ok(ps)
  {
    RoundList(ps)
  }

  function EncodeWindow(from: string, to: string): (p: Payload)
    ensures DecodeWindow(p) == Ok((from, to))
  {
    WindowObject(from, to)
  }
}
