/** The decision logic of the four HTTP handlers of the backend: platform
    validation and option defaulting for `/games`, the 404 of `/games/:id`,
    the missing-query check of `/search`, the token check of `/refresh`, and
    the mapping of a failed catalog request to 502. Each handler is a pure
    function of the request fields and the service's cache (giving the
    response, the new cache and the number of upstream requests), and a
    method that runs it against a `GamePassService`. */
module BackendRoutes {
  import opened Common
  import opened BackendTypes
  import opened BackendService

  // ---------------------------------------------------------------------------
  // Requests and responses.

  /** A query-string value: absent, one string, or something else (an array
      or an object, from a repeated or nested key), carried with the string
      it converts to. */
  datatype QueryValue = Absent | Str(s: string) | NonString(text: string)

  /** JavaScript truthiness: arrays and objects are truthy. */
  predicate QTruthy(v: QueryValue) {
    v.NonString? || (v.Str? && v.s != "")
  }

  /** `(value as string) || undefined`. */
  function StringOrUndefined(v: QueryValue): (r: Option<string>)
    ensures r.None? <==> !QTruthy(v)
    ensures v.Str? && v.s != "" ==> r == Some(v.s)
  {
    match v
    case Absent => None
    case Str(s) => if s == "" then None else Some(s)
    case NonString(text) => Some(text)
  }

  datatype ErrorCode = InvalidPlatform | MissingQuery | NotFound | UpstreamError | Unauthorized

  datatype Response =
    | GamesList(count: nat, games: seq<GameCard>)
    | OneGame(game: GameCard)
    | SearchResult(query: string, count: nat, games: seq<GameCard>)
    | Cleared
    | Failure(status: int, code: ErrorCode)

  /** A response together with the service cache after the request and the
      number of upstream requests it made. */
  datatype RouteStep = RouteStep(response: Response, cache: map<string, CachedEntry>, calls: nat)

  // ---------------------------------------------------------------------------
  // GET /games

  const ValidPlatforms: seq<string> := ["console", "pc", "cloud", "eaplay", "all"]

  /** A present platform outside the whitelist is refused. */
  predicate PlatformRejected(platform: QueryValue) {
    QTruthy(platform) && !(platform.Str? && platform.s in ValidPlatforms)
  }

  /** The options built for an accepted platform: absent or empty becomes
      `'all'`, empty market and language become absent. */
  function GamesOptions(platform: QueryValue, market: QueryValue, language: QueryValue): (o: QueryOptions)
    requires !PlatformRejected(platform)
    ensures o.platform.Some? && o.platform.value in ValidPlatforms
    ensures !QTruthy(platform) ==> o.platform == Some("all")
    ensures QTruthy(platform) ==> o.platform == Some(platform.s)
    ensures o.market == StringOrUndefined(market) && o.language == StringOrUndefined(language)
  {
    QueryOptions(
      if QTruthy(platform) then Some(platform.s) else Some("all"),
      StringOrUndefined(market),
      StringOrUndefined(language))
  }

  function GamesRoute(cache: map<string, CachedEntry>, config: Config, platform: QueryValue,
                      market: QueryValue, language: QueryValue, now: int, up: Upstream): (r: RouteStep)
    ensures PlatformRejected(platform) <==> r.response == Failure(400, InvalidPlatform)
    ensures PlatformRejected(platform) ==> r.cache == cache && r.calls == 0
    ensures !PlatformRejected(platform) ==>
      var s := AllGamesStep(cache, GamesOptions(platform, market, language), config, now, up);
      && r.cache == s.cache && r.calls == s.calls
      && (s.result.CatalogFetchFailed? <==> r.response == Failure(502, UpstreamError))
      && (s.result.Ok? ==> r.response == GamesList(|s.result.value|, s.result.value))
  {
    if PlatformRejected(platform) then
      RouteStep(Failure(400, InvalidPlatform), cache, 0)
    else
      var s := AllGamesStep(cache, GamesOptions(platform, market, language), config, now, up);
      match s.result
      case Ok(games) => RouteStep(GamesList(|games|, games), s.cache, s.calls)
      case CatalogFetchFailed => RouteStep(Failure(502, UpstreamError), s.cache, s.calls)
  }

  /** Without a platform, and with an empty one, `/games` reads and writes the
      same cache entry as `/games?platform=all`. */
  lemma GamesAbsentPlatformIsAll(market: QueryValue, language: QueryValue, config: Config)
    ensures CacheKey(GamesOptions(Absent, market, language), config)
         == CacheKey(GamesOptions(Str("all"), market, language), config)
    ensures CacheKey(GamesOptions(Str(""), market, language), config)
         == CacheKey(GamesOptions(Str("all"), market, language), config)
  {
  }

  /** An empty market falls back to the configured market, like an absent one. */
  lemma GamesEmptyMarketUsesConfig(platform: QueryValue, language: QueryValue, config: Config)
    requires !PlatformRejected(platform)
    ensures MarketOf(GamesOptions(platform, Str(""), language), config) == config.market
    ensures MarketOf(GamesOptions(platform, Absent, language), config) == config.market
  {
  }

  // ---------------------------------------------------------------------------
  // GET /games/:id and GET /search: no platform is passed.

  function LookupOptions(market: QueryValue, language: QueryValue): (o: QueryOptions)
    ensures o.platform.None?
    ensures o.market == StringOrUndefined(market) && o.language == StringOrUndefined(language)
  {
    QueryOptions(None, StringOrUndefined(market), StringOrUndefined(language))
  }

  /** The lookup routes always use the `all` cache entry. */
  lemma LookupUsesAllEntry(market: QueryValue, language: QueryValue, config: Config)
    ensures CacheKey(LookupOptions(market, language), config)
         == CacheKey(GamesOptions(Str("all"), market, language), config)
  {
  }

  function GameByIdRoute(cache: map<string, CachedEntry>, config: Config, id: string,
                         market: QueryValue, language: QueryValue, now: int, up: Upstream): (r: RouteStep)
    ensures var s := AllGamesStep(cache, LookupOptions(market, language), config, now, up);
      && r.cache == s.cache && r.calls == s.calls
      && (s.result.CatalogFetchFailed? <==> r.response == Failure(502, UpstreamError))
      && (s.result.Ok? ==>
            (r.response == Failure(404, NotFound) <==> FindById(s.result.value, id).None?))
      && (s.result.Ok? && FindById(s.result.value, id).Some? ==>
            r.response == OneGame(FindById(s.result.value, id).value) && r.response.game.id == id)
  {
    var s := AllGamesStep(cache, LookupOptions(market, language), config, now, up);
    match s.result
    case CatalogFetchFailed => RouteStep(Failure(502, UpstreamError), s.cache, s.calls)
    case Ok(games) =>
      match FindById(games, id)
      case None => RouteStep(Failure(404, NotFound), s.cache, s.calls)
      case Some(game) => RouteStep(OneGame(game), s.cache, s.calls)
  }

  /** `!q || typeof q !== 'string'`. */
  predicate QueryMissing(q: QueryValue) {
    !(q.Str? && q.s != "")
  }

  function SearchRoute(cache: map<string, CachedEntry>, config: Config, q: QueryValue,
                       market: QueryValue, language: QueryValue, now: int, up: Upstream): (r: RouteStep)
    ensures QueryMissing(q) <==> r.response == Failure(400, MissingQuery)
    ensures QueryMissing(q) ==> r.cache == cache && r.calls == 0
    ensures !QueryMissing(q) ==>
      var s := AllGamesStep(cache, LookupOptions(market, language), config, now, up);
      && r.cache == s.cache && r.calls == s.calls
      && (s.result.CatalogFetchFailed? <==> r.response == Failure(502, UpstreamError))
      && (s.result.Ok? ==>
            var found := SearchFilter(s.result.value, q.s);
            r.response == SearchResult(q.s, |found|, found))
  {
    if QueryMissing(q) then
      RouteStep(Failure(400, MissingQuery), cache, 0)
    else
      var s := AllGamesStep(cache, LookupOptions(market, language), config, now, up);
      match s.result
      case CatalogFetchFailed => RouteStep(Failure(502, UpstreamError), s.cache, s.calls)
      case Ok(games) =>
        var found := SearchFilter(games, q.s);
        RouteStep(SearchResult(q.s, |found|, found), s.cache, s.calls)
  }

  /** An array-valued `q` is refused like a missing one. */
  lemma SearchRejectsNonString(text: string, cache: map<string, CachedEntry>, config: Config,
                               market: QueryValue, language: QueryValue, now: int, up: Upstream)
    ensures SearchRoute(cache, config, NonString(text), market, language, now, up).response == Failure(400, MissingQuery)
    ensures SearchRoute(cache, config, Str(""), market, language, now, up).response == Failure(400, MissingQuery)
    ensures SearchRoute(cache, config, Absent, market, language, now, up).response == Failure(400, MissingQuery)
  {
  }

  /** A 502 is only ever the failed catalog-id request: any route that reaches
      the service and answers 502 has left the cache as it was. */
  lemma UpstreamErrorLeavesCache(cache: map<string, CachedEntry>, config: Config, platform: QueryValue,
                                 market: QueryValue, language: QueryValue, id: string, q: QueryValue,
                                 now: int, up: Upstream)
    ensures GamesRoute(cache, config, platform, market, language, now, up).response == Failure(502, UpstreamError)
        ==> GamesRoute(cache, config, platform, market, language, now, up).cache == cache
    ensures GameByIdRoute(cache, config, id, market, language, now, up).response == Failure(502, UpstreamError)
        ==> GameByIdRoute(cache, config, id, market, language, now, up).cache == cache
    ensures SearchRoute(cache, config, q, market, language, now, up).response == Failure(502, UpstreamError)
        ==> SearchRoute(cache, config, q, market, language, now, up).cache == cache
  {
  }

  // ---------------------------------------------------------------------------
  // POST /refresh

  /** The first index at which `pat` occurs in `s` (`String.prototype.indexOf`). */
  function IndexOf(s: string, pat: string): (r: Option<nat>)
    ensures r.None? <==> forall i :: !OccursAt(s, pat, i)
    ensures r.Some? ==> OccursAt(s, pat, r.value) && forall j :: 0 <= j < r.value ==> !OccursAt(s, pat, j)
    decreases |s|
  {
    if pat <= s then
      assert OccursAt(s, pat, 0);
      Some(0)
    else if s == [] then
      None
    else
      var r := IndexOf(s[1..], pat);
      ShiftOccurrence(s, pat);
      ShiftEach(s, pat);
      match r
      case None => None
      case Some(k) => Some(k + 1)
  }

  /** Occurrences in `s` away from index 0 are those of `s[1..]`, shifted. */
  lemma ShiftEach(s: string, pat: string)
    requires s != []
    ensures forall i :: 0 < i ==> (OccursAt(s, pat, i) <==> OccursAt(s[1..], pat, i - 1))
  {
    forall i | 0 < i
      ensures OccursAt(s, pat, i) <==> OccursAt(s[1..], pat, i - 1)
    {
      if i + |pat| <= |s| {
        assert s[1..][i - 1..i - 1 + |pat|] == s[i..i + |pat|];
      }
    }
  }

  /** `s.replace(pat, rep)` with a string pattern: only the first occurrence
      is replaced. */
  function ReplaceFirst(s: string, pat: string, rep: string): (r: string)
    ensures IndexOf(s, pat).None? ==> r == s
    ensures IndexOf(s, pat).Some? ==>
      var i := IndexOf(s, pat).value;
      r == s[..i] + rep + s[i + |pat|..]
  {
    match IndexOf(s, pat)
    case None => s
    case Some(i) => s[..i] + rep + s[i + |pat|..]
  }

  /** `req.headers.authorization?.replace('Bearer ', '')`. */
  function StrippedToken(header: Option<string>): Option<string> {
    match header
    case None => None
    case Some(h) => Some(ReplaceFirst(h, "Bearer ", ""))
  }

  predicate Authorized(header: Option<string>, refreshToken: string) {
    refreshToken != "" && StrippedToken(header) == Some(refreshToken)
  }

  function RefreshRoute(cache: map<string, CachedEntry>, config: Config, header: Option<string>): (r: RouteStep)
    ensures r.calls == 0
    ensures Authorized(header, config.refreshToken) ==> r.response == Cleared && r.cache == map[]
    ensures !Authorized(header, config.refreshToken) ==> r.response == Failure(401, Unauthorized) && r.cache == cache
  {
    if Authorized(header, config.refreshToken) then RouteStep(Cleared, map[], 0)
    else RouteStep(Failure(401, Unauthorized), cache, 0)
  }

  /** With no token configured (the default), refresh is always refused. */
  lemma RefreshNeedsConfiguredToken(cache: map<string, CachedEntry>, header: Option<string>)
    ensures RefreshRoute(cache, DefaultConfig, header) == RouteStep(Failure(401, Unauthorized), cache, 0)
  {
  }

  /** A request without the header is refused. */
  lemma RefreshNeedsHeader(cache: map<string, CachedEntry>, config: Config)
    ensures RefreshRoute(cache, config, None).response == Failure(401, Unauthorized)
  {
  }

  /** `Bearer <token>` is accepted. */
  lemma RefreshAcceptsBearer(cache: map<string, CachedEntry>, config: Config)
    requires config.refreshToken != ""
    ensures RefreshRoute(cache, config, Some("Bearer " + config.refreshToken)) == RouteStep(Cleared, map[], 0)
  {
    var h := "Bearer " + config.refreshToken;
    assert "Bearer " <= h;
    assert IndexOf(h, "Bearer ") == Some(0);
    assert h[..0] + "" + h[7..] == config.refreshToken;
  }

  /** The bare token, without the `Bearer ` prefix, is accepted too when it
      does not itself contain `Bearer `. */
  lemma RefreshAcceptsBareToken(cache: map<string, CachedEntry>, config: Config)
    requires config.refreshToken != ""
    requires forall i :: !OccursAt(config.refreshToken, "Bearer ", i)
    ensures RefreshRoute(cache, config, Some(config.refreshToken)).response == Cleared
  {
  }

  // ---------------------------------------------------------------------------
  // The handlers run against the service.

  method GamesHandler(svc: GamePassService, platform: QueryValue, market: QueryValue,
                      language: QueryValue, now: int, up: Upstream)
    returns (response: Response, calls: nat)
    modifies svc
    ensures RouteStep(response, svc.cache, calls) == GamesRoute(old(svc.cache), svc.config, platform, market, language, now, up)
  {
    if PlatformRejected(platform) {
      return Failure(400, InvalidPlatform), 0;
    }
    var result;
    result, calls := svc.GetAllGames(GamesOptions(platform, market, language), now, up);
    match result
    case Ok(games) => response := GamesList(|games|, games);
    case CatalogFetchFailed => response := Failure(502, UpstreamError);
  }

  method GameByIdHandler(svc: GamePassService, id: string, market: QueryValue, language: QueryValue,
                         now: int, up: Upstream)
    returns (response: Response, calls: nat)
    modifies svc
    ensures RouteStep(response, svc.cache, calls) == GameByIdRoute(old(svc.cache), svc.config, id, market, language, now, up)
  {
    var result;
    result, calls := svc.GetGameById(id, LookupOptions(market, language), now, up);
    match result
    case CatalogFetchFailed => response := Failure(502, UpstreamError);
    case Ok(found) =>
      match found
      case None => response := Failure(404, NotFound);
      case Some(game) => response := OneGame(game);
  }

  method SearchHandler(svc: GamePassService, q: QueryValue, market: QueryValue, language: QueryValue,
                       now: int, up: Upstream)
    returns (response: Response, calls: nat)
    modifies svc
    ensures RouteStep(response, svc.cache, calls) == SearchRoute(old(svc.cache), svc.config, q, market, language, now, up)
  {
    if QueryMissing(q) {
      return Failure(400, MissingQuery), 0;
    }
    var result;
    result, calls := svc.SearchGames(q.s, LookupOptions(market, language), now, up);
    match result
    case CatalogFetchFailed => response := Failure(502, UpstreamError);
    case Ok(games) => response := SearchResult(q.s, |games|, games);
  }

  method RefreshHandler(svc: GamePassService, header: Option<string>) returns (response: Response)
    modifies svc
    ensures RouteStep(response, svc.cache, 0) == RefreshRoute(old(svc.cache), svc.config, header)
  {
    if !Authorized(header, svc.config.refreshToken) {
      return Failure(401, Unauthorized);
    }
    svc.ClearCache();
    response := Cleared;
  }
}
