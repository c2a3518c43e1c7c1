/** The client's game service: cache first, then the backend, then the
    bundled mock list, with the game records normalized on the way in. The
    backend request is an abstract outcome; the mock list is a parameter. */
module FrontendGameService {
  import opened Common
  import opened FrontendTypes
  import opened BrowserCache
  import BackendTypes

  /** Thirty minutes for data from the backend; five for the mock list. */
  const CacheTtl: int := 30 * 60 * 1000
  const MockTtl: int := 5 * 60 * 1000

  const DefaultPlatform := "console"
  const FallbackCover := "https://upload.wikimedia.org/wikipedia/pt/d/dc/Capa_de_Forza_Horizon_5.jpg"

  /** A game as the backend's JSON carries it; any field but the id and the
      title may be missing or `null`. */
  datatype RawGame = RawGame(
    id: string,
    title: string,
    platforms: Option<seq<string>>,
    genres: Option<seq<string>>,
    description: Option<string>,
    coverUrl: Option<string>,
    releaseDate: Option<string>)

  datatype FetchOutcome = FetchOk(games: seq<RawGame>) | FetchFailed

  /** The mapping applied to every game of a backend response. An array, even
      an empty one, is truthy, so only a missing list takes the default. */
  function Normalize(raw: RawGame): (g: Game)
    ensures g.id == raw.id && g.title == raw.title && g.releaseDate == raw.releaseDate
    ensures raw.platforms.None? ==> g.platform == ["Console"]
    ensures raw.platforms.Some? ==> g.platform == raw.platforms.value
    ensures raw.genres.None? ==> g.genres == []
    ensures raw.genres.Some? ==> g.genres == raw.genres.value
    ensures g.coverUrl != ""
    ensures Truthy(raw.coverUrl) ==> g.coverUrl == raw.coverUrl.value
    ensures !Truthy(raw.coverUrl) ==> g.coverUrl == FallbackCover
    ensures Truthy(raw.description) ==> g.description == raw.description.value
    ensures !Truthy(raw.description) ==> g.description == ""
  {
    Game(
      raw.id,
      raw.title,
      if raw.platforms.Some? then raw.platforms.value else ["Console"],
      if raw.genres.Some? then raw.genres.value else [],
      OrElse(raw.description, ""),
      OrElse(raw.coverUrl, FallbackCover),
      raw.releaseDate)
  }

  function NormalizeAll(raws: seq<RawGame>): (gs: seq<Game>)
    ensures |gs| == |raws| && forall i :: 0 <= i < |raws| ==> gs[i] == Normalize(raws[i])
  {
    if raws == [] then [] else [Normalize(raws[0])] + NormalizeAll(raws[1..])
  }

  /** A backend game card as its JSON arrives here. */
  function FromCard(card: BackendTypes.GameCard): RawGame {
    RawGame(card.id, card.title, Some(card.platforms), Some(card.genres), Some(card.description),
            card.coverUrl, card.releaseDate)
  }

  /** A card from the backend keeps its id, title, platforms, genres,
      description and release date; a card without a cover gets the fallback. */
  lemma NormalizeBackendCard(card: BackendTypes.GameCard)
    ensures var g := Normalize(FromCard(card));
      && g.id == card.id && g.title == card.title
      && g.platform == card.platforms && g.genres == card.genres
      && g.description == card.description && g.releaseDate == card.releaseDate
      && (card.coverUrl.None? ==> g.coverUrl == FallbackCover)
  {
  }

  /** `games_<platform>`, with `console` when no platform is given. */
  function GamesKey(platform: Option<string>): string {
    "games_" + (if platform.Some? then platform.value else DefaultPlatform)
  }

  lemma GamesKeyInjective(p1: Option<string>, p2: Option<string>)
    ensures GamesKey(p1) == GamesKey(p2) <==>
      (if p1.Some? then p1.value else DefaultPlatform) == (if p2.Some? then p2.value else DefaultPlatform)
  {
    var a := if p1.Some? then p1.value else DefaultPlatform;
    var b := if p2.Some? then p2.value else DefaultPlatform;
    if GamesKey(p1) == GamesKey(p2) {
      assert a == GamesKey(p1)[6..] && b == GamesKey(p2)[6..];
    }
  }

  // ---------------------------------------------------------------------------
  // getGames as a state transition.

  /** The games returned, the storage after the call, and whether the
      backend was asked. */
  datatype GamesStep = GamesStep(games: seq<Game>, storage: map<string, Item<seq<Game>>>, fetched: bool)

  function GetGamesStep(st: map<string, Item<seq<Game>>>, platform: Option<string>, now: int,
                        outcome: FetchOutcome, mock: seq<Game>): (s: GamesStep)
    ensures var key := GamesKey(platform);
      GetResult(st, key, now).Some? ==> s == GamesStep(GetResult(st, key, now).value, st, false)
    ensures var key := GamesKey(platform);
      GetResult(st, key, now).None? ==>
        && s.fetched
        && (outcome.FetchFailed? ==> s.games == mock && s.storage == SetStore(GetStore(st, key, now), key, mock, MockTtl, now))
        && (outcome.FetchOk? ==>
              s.games == NormalizeAll(outcome.games)
              && s.storage == SetStore(GetStore(st, key, now), key, s.games, CacheTtl, now))
  {
    var key := GamesKey(platform);
    match GetResult(st, key, now)
    case Some(data) => GamesStep(data, st, false)
    case None =>
      var st1 := GetStore(st, key, now);
      match outcome
      case FetchOk(raws) =>
        var games := NormalizeAll(raws);
        GamesStep(games, SetStore(st1, key, games, CacheTtl, now), true)
      case FetchFailed => GamesStep(mock, SetStore(st1, key, mock, MockTtl, now), true)
  }

  /** After a call that had to ask the backend, a second call for the same
      platform within the chosen lifetime (30 minutes after a success, 5
      after a failure) returns the same games without asking again. */
  lemma RepeatWithinTtl(st: map<string, Item<seq<Game>>>, platform: Option<string>, t1: int, t2: int,
                        o1: FetchOutcome, o2: FetchOutcome, mock: seq<Game>)
    requires GetResult(st, GamesKey(platform), t1).None?
    requires t2 <= t1 + (if o1.FetchOk? then CacheTtl else MockTtl)
    ensures var s1 := GetGamesStep(st, platform, t1, o1, mock);
      var s2 := GetGamesStep(s1.storage, platform, t2, o2, mock);
      s2.games == s1.games && !s2.fetched && s2.storage == s1.storage
  {
    var key := GamesKey(platform);
    var s1 := GetGamesStep(st, platform, t1, o1, mock);
    SetThenGet(GetStore(st, key, t1), key, s1.games, if o1.FetchOk? then CacheTtl else MockTtl, t1, t2);
  }

  /** The mock list is only kept for five minutes: just after that the
      backend is asked again. */
  lemma MockExpiresAfterFiveMinutes(st: map<string, Item<seq<Game>>>, platform: Option<string>, t1: int,
                                    o2: FetchOutcome, mock: seq<Game>)
    requires GetResult(st, GamesKey(platform), t1).None?
    ensures var s1 := GetGamesStep(st, platform, t1, FetchFailed, mock);
      GetGamesStep(s1.storage, platform, t1 + MockTtl + 1, o2, mock).fetched
  {
    var key := GamesKey(platform);
    SetThenGetExpired(GetStore(st, key, t1), key, mock, MockTtl, t1, t1 + MockTtl + 1);
  }

  /** `getGames`. */
  method GetGames(cache: CacheService<seq<Game>>, platform: Option<string>, now: int,
                  outcome: FetchOutcome, mock: seq<Game>)
    returns (games: seq<Game>, fetched: bool)
    modifies cache
    ensures GamesStep(games, cache.storage, fetched) == GetGamesStep(old(cache.storage), platform, now, outcome, mock)
  {
    var cacheKey := GamesKey(platform);
    var cachedData := cache.Get(cacheKey, now);
    if cachedData.Some? {
      return cachedData.value, false;
    }
    fetched := true;
    match outcome
    case FetchOk(raws) =>
      games := NormalizeAll(raws);
      cache.Set(cacheKey, games, CacheTtl, now);
    case FetchFailed =>
      games := mock;
      cache.Set(cacheKey, games, MockTtl, now);
  }

  /** `searchGames`: the normalized results, or nothing when the request
      fails. */
  function SearchGames(outcome: FetchOutcome): (r: seq<Game>)
    ensures outcome.FetchFailed? ==> r == []
    ensures outcome.FetchOk? ==> |r| == |outcome.games|
    ensures outcome.FetchOk? ==> forall i :: 0 <= i < |r| ==> r[i] == Normalize(outcome.games[i])
  {
    match outcome
    case FetchFailed => []
    case FetchOk(raws) => NormalizeAll(raws)
  }

  /** `clearCache`. */
  method ClearCache(cache: CacheService<seq<Game>>)
    modifies cache
    ensures cache.storage == ClearAllStore(old(cache.storage))
  {
    cache.ClearAll();
  }

  /** After clearing, the next call asks the backend. */
  lemma FetchAfterClear(st: map<string, Item<seq<Game>>>, platform: Option<string>, now: int,
                        outcome: FetchOutcome, mock: seq<Game>)
    ensures GetGamesStep(ClearAllStore(st), platform, now, outcome, mock).fetched
  {
    ClearAllProperties(st, GamesKey(platform), now);
  }
}
