/** The cache key namespace of the repositories. */
module Keys {
  import opened Domain
  import opened Numeric

  /** "team:" + id, the team hash addressed by a raw ID string (Get, Add). */
  function TeamKey(id: string): string {
    "team:" + id
  }

  /** fmt.Sprintf("team:%d", n), the team hash addressed by a numeric ID. */
  function TeamKeyFor(n: int): (k: string)
    ensures k == TeamKey(Itoa(n))
  {
    "team:" + Itoa(n)
  }

  /** fmt.Sprintf("teams:%d:%d", league, season), the catalog blob. */
  function TeamsKey(league: int, season: int): string {
    "teams:" + Itoa(league) + ":" + Itoa(season)
  }

  /** cacheKey: fmt.Sprintf("fixtures:%s:%s:%s:%s:%s", ...). */
  function FixturesKey(league: string, team: string, season: string, from: string, to: string): string {
    "fixtures:" + league + ":" + team + ":" + season + ":" + from + ":" + to
  }

  /** fmt.Sprintf("pf:%s:%d:%s", q.League, q.Season, q.Round). */
  function RoundKey(q: RoundQuery): string {
    "pf:" + q.league + ":" + Itoa(q.season) + ":" + q.round
  }

  /** fmt.Sprintf("%s:%d:%s", q.League, q.Season, q.Round): no prefix of its own. */
  function WindowKey(q: RoundQuery): string {
    q.league + ":" + Itoa(q.season) + ":" + q.round
  }

  /** The numeric team keys are one per ID. */
  lemma TeamKeyForInjective(a: int, b: int)
    ensures TeamKeyFor(a) == TeamKeyFor(b) <==> a == b
  {
    if TeamKeyFor(a) == TeamKeyFor(b) {
      assert Itoa(a) == TeamKeyFor(a)[5..];
      assert Itoa(b) == TeamKeyFor(b)[5..];
      ItoaInjective(a, b);
    }
  }

  /** The four prefixed schemes never collide with one another. */
  lemma PrefixedKeysDisjoint(id: string, league: int, season: int, q: RoundQuery,
                             fl: string, ft: string, fs: string, ff: string, fto: string)
    ensures TeamKey(id) != TeamsKey(league, season)
    ensures TeamKey(id) != FixturesKey(fl, ft, fs, ff, fto)
    ensures TeamKey(id) != RoundKey(q)
    ensures TeamsKey(league, season) != FixturesKey(fl, ft, fs, ff, fto)
    ensures TeamsKey(league, season) != RoundKey(q)
    ensures RoundKey(q) != FixturesKey(fl, ft, fs, ff, fto)
  {
    assert TeamKey(id)[4] == ':' && TeamsKey(league, season)[4] == 's';
    assert TeamKey(id)[0] == 't' && TeamsKey(league, season)[0] == 't';
    assert FixturesKey(fl, ft, fs, ff, fto)[0] == 'f' && RoundKey(q)[0] == 'p';
  }

  /** The unprefixed round-window key can coincide with a fixtures-by-round key. */
  lemma WindowKeyCanCollideWithRoundKey()
    ensures WindowKey(RoundQuery("pf:ETH", 2022, "1", "", "")) == RoundKey(RoundQuery("ETH", 2022, "1", "", ""))
  {
  }
}
