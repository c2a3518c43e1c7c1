# Game Pass dashboard — a verified model of its core

The dashboard shows the Xbox Game Pass catalog. Its backend asks two
Microsoft endpoints for the catalog: first the product ids of a catalog,
then the product details in batches of 20. It maps each product to a small
game card, keeps the cards in a process-wide cache with a time-to-live, and
serves them through four HTTP routes: list, one game by id, title search,
and a token-protected cache refresh. The browser client fetches the list,
keeps it in a `localStorage` cache with its own time-to-live, and falls back
to a bundled mock list when the backend cannot be reached. It filters, sorts
and paginates the list, fills in review scores one game at a time from a
mock score service, and colours each score badge.

The model is written in Dafny, one module per source file:

- `BackendService` is the aggregation service. The class
  `GamePassService` owns the cache map. A state-transition function,
  `AllGamesStep`, specifies `getAllGames`.
- `BackendRoutes` holds the decision logic of the four routes. Each route is
  a pure function from the request and the service's cache to a response,
  plus a handler method that runs it against the service.
- `AppList` is the main page. It covers the genre list, the filters,
  sorting, pages of 24 and score updates. The class `App` holds the page's
  state.
- `Pagination` is the pagination bar.
- `BrowserCache` is the `localStorage` cache. The storage is a map field of
  the class `CacheService`.
- `FrontendGameService` is the client's game service over that cache.
- `Metacritic` is the mock score service, and `ScoreBadge` is the badge
  colouring.
- `Common` collects the JavaScript helpers: truthiness, `||` chains, ASCII
  `toLowerCase`, `includes`, `filter`, clamped `slice`, and code-point string
  order.
- `BackendTypes` and `FrontendTypes` hold the records.

Network requests are modelled as abstract outcomes. On the backend, an
`Upstream` value holds two total functions: one for the catalog-id request
(an id list or failure) and one for the request of a batch of details (an
optional product list or failure). On the client, a fetch is a
`FetchOutcome`, and the bundled mock list is a parameter. The clock is an
argument `now` in milliseconds. Each backend operation also returns how
many upstream requests it made, so "answered from the cache" can be stated.

The cache key in `gamepassService.ts` joins platform, market and language
with `-`. One might expect the key to be injective. It is not, because a
market or a language may itself contain `-`. The model follows the code:
`CacheKeyCollision` exhibits two option triples with the same key, and
`CacheKeyInjectiveWithoutDash` proves the key injective when the platform
and the market hold no `-`.

## Model

| member | source | states |
|---|---|---|
| BackendService.CacheKey | backend/src/services/gamepassService.ts:22-27 | The key starts with the given platform and `-` when it is truthy, and with `all-` otherwise. |
| BackendService.CacheKeyDefaults | backend/src/services/gamepassService.ts:22-27 | With every field absent or empty, the key is `all-` + configured market + `-` + configured language. |
| BackendService.CacheKeyEmptyIsAbsent | backend/src/services/gamepassService.ts:23-25 | An empty platform, market or language gives the same key as an absent one. |
| BackendService.CacheKeyExample | backend/src/services/gamepassService.ts:26 | The key is `platform-market-language`; for example `pc`, `US`, `en-US` gives `pc-US-en-US`. |
| BackendService.CacheKeyCollision | backend/src/services/gamepassService.ts:26 | Two different option triples (`US-en`,`US` and `US`,`en-US`) give the same key. |
| BackendService.CacheKeyInjectiveWithoutDash | backend/src/services/gamepassService.ts:22-27 | Equal keys imply equal resolved platform, market and language when the platform and the market contain no `-`. |
| BackendService.EntryValid | backend/src/services/gamepassService.ts:32-39 | A valid entry is present, and one whose age has reached the time-to-live is not valid (strict `<`); with `EntryValidAfterStore` and `AllGamesRefetchAfterTtl`, an entry serves exactly while `now < timestamp + ttl`. |
| BackendService.EntryValidAfterStore | backend/src/services/gamepassService.ts:32-39 | After storing an entry under a key, that key is valid iff `now < timestamp + ttl`, and every other key's validity is unchanged. |
| BackendService.CatalogId | backend/src/services/gamepassService.ts:52 | The table entry of the platform when present and non-empty; the `all` catalog for any other platform name. |
| BackendService.CatalogIdFallsBackToAll | backend/src/config/index.ts:15-20 | With the configured table, `cloud` and `eaplay` both get the `all` catalog (not the EA Play one), while `console` and `pc` get their own. |
| BackendService.GamePassIds | backend/src/services/gamepassService.ts:44-79 | The id request goes to `catalogIds[platform] || catalogIds.all` with `market || config market` and `language || config language`; and an absent platform asks the `all` catalog. |
| BackendService.ChunksShape | backend/src/services/gamepassService.ts:93-98 | There are `ceil(n/20)` batches, each 1 to 20 long, all but the last exactly 20, and their concatenation is the id list. |
| BackendService.MakeBatches | backend/src/services/gamepassService.ts:94-98 | The batching loop yields exactly the consecutive 20-element slices of the ids. |
| BackendService.FetchBatches | backend/src/services/gamepassService.ts:102-127 | The fetch loop yields the in-order concatenation of the `Products` of the successful batches. |
| BackendService.GetProductsDetails | backend/src/services/gamepassService.ts:85-131 | The result is the collected products of the batches, the number of detail requests is `ceil(n/20)`, and empty ids give no request and `[]`. |
| BackendService.CollectAppend | backend/src/services/gamepassService.ts:104-127 | Collecting over two runs of batches is the concatenation of collecting over each. |
| BackendService.CollectSkipsFailedBatch | backend/src/services/gamepassService.ts:120-126 | A failed batch, or one without `Products`, contributes nothing: the result is that of the batches around it. |
| BackendService.CollectAllFailed | backend/src/services/gamepassService.ts:123-126 | When every detail request fails the result is empty, with no failure. |
| BackendService.FindByPurpose | backend/src/services/gamepassService.ts:148-149 | None iff no image has that purpose; otherwise the first image with it. |
| BackendService.CoverUrl | backend/src/services/gamepassService.ts:146-153 | A cover is a non-empty Uri of one of the product's images, and no images means no cover. |
| BackendService.Dedupe | backend/src/services/gamepassService.ts:167 | The same elements as the input, with no duplicates. |
| BackendService.DedupeFirstOccurrenceOrder | backend/src/services/gamepassService.ts:167 | The deduplicated list keeps first-occurrence order. |
| BackendService.CollectPlatforms | backend/src/services/gamepassService.ts:156-164 | The attribute loop pushes, attribute by attribute, the platform names their tests select. |
| BackendService.RawPlatformsMembers | backend/src/services/gamepassService.ts:158-163 | `Console` is pushed iff some attribute is an XboxOne or XboxSeriesX dependency, `PC` iff some is a Windows dependency, `Cloud` iff some is `XboxLiveGoldRequired` with minimum 0, and nothing else is pushed. |
| BackendService.ToGameCard | backend/src/services/gamepassService.ts:136-184 | The mapper is total: the id is the product id, the title is never empty, platforms are distinct platform names, and a cover or release date when present is non-empty. |
| BackendService.MapperText | backend/src/services/gamepassService.ts:142-143 | The title is `ProductTitle`, else `Unknown Game`; the description is `ShortDescription`, else `ProductDescription`, else empty, with falsy values falling through. |
| BackendService.MapperCover | backend/src/services/gamepassService.ts:146-153 | The cover is the Poster Uri, else the BoxArt Uri, else the first image's Uri, else none. |
| BackendService.MapperPlatforms | backend/src/services/gamepassService.ts:155-167 | The card's platforms contain `Console`, `PC` and `Cloud` under exactly the attribute conditions, in first-occurrence order. |
| BackendService.MapperGenresAndRelease | backend/src/services/gamepassService.ts:170-173 | Genres are `Categories`, else `[]`; the release date is the market `ReleaseDate`, else `OriginalReleaseDate`, else the properties' `ReleaseDate`, else none. |
| BackendService.MapperAllAbsent | backend/src/services/gamepassService.ts:136-184 | A product with no optional field maps to `Unknown Game` with empty description, platforms and genres, and no cover or date. |
| BackendService.MapProductToGameCard | backend/src/services/gamepassService.ts:136-184 | The mapper written with its attribute loop is the mapper function. |
| BackendService.MapCards | backend/src/services/gamepassService.ts:203 | One card per product, in order. |
| BackendService.FindById | backend/src/services/gamepassService.ts:222 | None iff no game has that id; otherwise the first game with it. |
| BackendService.SearchFilter | backend/src/services/gamepassService.ts:233-234 | A game is kept iff it is in the list and its lower-cased title contains the lower-cased query; an empty query keeps the whole list. |
| BackendService.AllGamesStep | backend/src/services/gamepassService.ts:189-212 | A valid entry is returned with the cache unchanged and no request. A miss makes a request. A failed id request fails and leaves the cache unchanged. A success stores its games under the key. Every other key is unchanged. |
| BackendService.AllGamesMissStores | backend/src/services/gamepassService.ts:201-211 | An unfolding of the miss branch of `AllGamesStep`: on a miss with a successful id request, the result holds one card per fetched product, the cache entry is stamped `now`, and the request count is one plus the batch count. |
| BackendService.AllGamesRepeatWithinTtl | backend/src/services/gamepassService.ts:32-39 | A second call less than the time-to-live after a fetch returns the same games, with no request and no change. |
| BackendService.AllGamesRefetchAfterTtl | backend/src/services/gamepassService.ts:38 | A call at least the time-to-live after a fetch asks the upstream again: the validity test is strict. |
| BackendService.AllGamesAfterClearFetches | backend/src/services/gamepassService.ts:240-243 | After clearing, a call always asks the upstream. |
| BackendService.GamePassService.constructor | backend/src/services/gamepassService.ts:12 | The process starts with an empty cache. |
| BackendService.GamePassService.IsCacheValid | backend/src/services/gamepassService.ts:32-39 | Valid implies the key is cached and younger than the configured time-to-live; an entry whose age is at least the time-to-live is not valid. |
| BackendService.GamePassService.GetAllGames | backend/src/services/gamepassService.ts:189-212 | The result, new cache and request count are those of `AllGamesStep` on the old cache. |
| BackendService.GamePassService.GetGameById | backend/src/services/gamepassService.ts:217-223 | The first game with the id among `getAllGames`' result, with the same cache effect, or the failure. |
| BackendService.GamePassService.SearchGames | backend/src/services/gamepassService.ts:228-235 | The title search over `getAllGames`' result, with the same cache effect, or the failure. |
| BackendService.GamePassService.ClearCache | backend/src/services/gamepassService.ts:240-243 | The delete loop leaves the cache empty, so clearing twice equals clearing once. |
| BackendRoutes.StringOrUndefined | backend/src/routes/gamepass.ts:27-28 | Undefined iff the query value is falsy; a non-empty string is kept. |
| BackendRoutes.GamesOptions | backend/src/routes/gamepass.ts:25-29 | An accepted platform is whitelisted, and a falsy one becomes `all`; an empty market or language becomes undefined. |
| BackendRoutes.GamesRoute | backend/src/routes/gamepass.ts:12-46 | 400 INVALID_PLATFORM iff a present platform is outside the whitelist, with no service call. Otherwise the service result: 502 UPSTREAM_ERROR iff the catalog request failed, else the games and their count. |
| BackendRoutes.GamesAbsentPlatformIsAll | backend/src/routes/gamepass.ts:26 | Without a platform, or with an empty one, `/games` uses the same cache entry as `platform=all`. |
| BackendRoutes.GamesEmptyMarketUsesConfig | backend/src/routes/gamepass.ts:27 | An empty or absent market resolves to the configured market. |
| BackendRoutes.LookupOptions | backend/src/routes/gamepass.ts:57-60 | The lookup routes pass no platform, only the market and language. |
| BackendRoutes.LookupUsesAllEntry | backend/src/routes/gamepass.ts:100-103 | `/games/:id` and `/search` always use the `all` cache entry. |
| BackendRoutes.GameByIdRoute | backend/src/routes/gamepass.ts:52-83 | 404 NOT_FOUND iff the service finds no game with the id, 502 iff the catalog request failed, else that game. |
| BackendRoutes.SearchRoute | backend/src/routes/gamepass.ts:89-121 | 400 MISSING_QUERY iff `q` is missing, empty or not a string, with no service call; else 502 on failure or the search result with its count. |
| BackendRoutes.SearchRejectsNonString | backend/src/routes/gamepass.ts:93-98 | An array-valued, empty or absent `q` is refused with 400. |
| BackendRoutes.UpstreamErrorLeavesCache | backend/src/routes/gamepass.ts:38-45 | A 502 answer from any of the three GET routes leaves the cache as it was. |
| BackendRoutes.IndexOf | backend/src/routes/gamepass.ts:129 | The first index where the pattern occurs, or none iff it never occurs. |
| BackendRoutes.ReplaceFirst | backend/src/routes/gamepass.ts:129 | Only the first occurrence of the pattern is replaced; with none the string is unchanged. |
| BackendRoutes.RefreshRoute | backend/src/routes/gamepass.ts:128-144 | Accepted iff a token is configured and equals the header with its first `Bearer ` removed. Acceptance clears the cache; refusal is 401 UNAUTHORIZED with the cache unchanged. |
| BackendRoutes.RefreshNeedsConfiguredToken | backend/src/routes/gamepass.ts:131 | With the default empty token every refresh is refused. |
| BackendRoutes.RefreshNeedsHeader | backend/src/routes/gamepass.ts:129-131 | A request without the header is refused. |
| BackendRoutes.RefreshAcceptsBearer | backend/src/routes/gamepass.ts:129-138 | `Bearer <token>` is accepted and clears the cache. |
| BackendRoutes.RefreshAcceptsBareToken | backend/src/routes/gamepass.ts:129-138 | The bare token is accepted too when it does not contain `Bearer `. |
| BackendRoutes.GamesHandler | backend/src/routes/gamepass.ts:12-46 | Run against the service, the handler gives `GamesRoute`'s response, cache and request count. |
| BackendRoutes.GameByIdHandler | backend/src/routes/gamepass.ts:52-83 | Run against the service, the handler gives `GameByIdRoute`'s response, cache and request count. |
| BackendRoutes.SearchHandler | backend/src/routes/gamepass.ts:89-121 | Run against the service, the handler gives `SearchRoute`'s response, cache and request count. |
| BackendRoutes.RefreshHandler | backend/src/routes/gamepass.ts:128-144 | Run against the service, the handler gives `RefreshRoute`'s response and cache. |
| AppList.GenresOf | frontend/src/App.tsx:69-72 | A genre is in the set iff some game has it. |
| AppList.InsertSorted | frontend/src/App.tsx:73 | Inserting a new string into a strictly increasing list keeps it strictly increasing and adds exactly that string. |
| AppList.AvailableGenres | frontend/src/App.tsx:68-74 | The genre list is strictly increasing, has no duplicates, and holds a genre iff some game has it. |
| AppList.ApplyFiltersIsConjunction | frontend/src/App.tsx:94-117 | The four filter steps one after another equal one filter by their conjunction. |
| AppList.RunFilters | frontend/src/App.tsx:92-117 | The filter steps, each skipped when its filter is off, give the games passing every filter, in order. |
| AppList.SortBy | frontend/src/App.tsx:120-131 | Sorting is a permutation of its input. |
| AppList.SortBySorted | frontend/src/App.tsx:120-131 | With a total preorder as comparator, the sorted list is ordered by it. |
| AppList.SortLe | frontend/src/App.tsx:119-130 | `az` puts a before b iff `localeCompare` of the titles is at most 0, `newest` iff that of b's date against a's (missing dates as `''`) is, and `score_desc` iff a's score (missing as -1) is at least b's; `SortBySorted` and `FilteredGames` prove the sorted list non-increasing by score under `score_desc`. |
| AppList.ScoreDescIsTotalPreorder | frontend/src/App.tsx:126-129 | The score comparator (a missing score counts as -1) is a total preorder. |
| AppList.FilteredGames | frontend/src/App.tsx:91-134 | The result is a permutation of the filtered games. A game is in it iff it is in the catalog and passes every active filter. Under `score_desc` the scores do not increase. |
| AppList.TotalPages | frontend/src/App.tsx:139 | The page count is the ceiling of the item count over 24. |
| AppList.PageSlice | frontend/src/App.tsx:150-154 | A page holds at most 24 items; page p is the slice from `(p-1)*24` to `min(p*24, n)`. |
| AppList.PagesCoverList | frontend/src/App.tsx:137-154 | Pages 1 to the page count, concatenated, give back the whole list, and none of them is empty. |
| AppList.InitialScores | frontend/src/App.tsx:35-38 | Each catalog game is shown with its score loading, in order. |
| AppList.LoadingScoresFilteredOut | frontend/src/App.tsx:115-116 | While every score is loading, a positive minimum score hides every game, and the sort sees every game at -1. |
| AppList.UpdateScore | frontend/src/App.tsx:47-49 | A score update changes only the score of the games with that id; length, order and every other game are unchanged. |
| AppList.UpdateScoreCommutes | frontend/src/App.tsx:44-56 | Updates for two different games commute, so the arrival order of the scores does not matter. |
| AppList.UpdateScoreLastWins | frontend/src/App.tsx:47-54 | Of two updates for the same game the later one wins. |
| AppList.UpdateScoreUnknownId | frontend/src/App.tsx:47-49 | An update for an id no game has changes nothing. |
| AppList.App.constructor | frontend/src/App.tsx:13-25 | The page starts empty, loading, without error, on page 1, with the initial filters. |
| AppList.App.CatalogLoaded | frontend/src/App.tsx:35-41 | The catalog is shown with every score loading, and loading ends. |
| AppList.App.CatalogFailed | frontend/src/App.tsx:58-61 | A failed catalog load sets the error message and ends loading. |
| AppList.App.ScoreArrived | frontend/src/App.tsx:46-49 | An arrived score updates the games with that id. |
| AppList.App.ScoreFailed | frontend/src/App.tsx:50-54 | A failed score request marks the games with that id as not found. |
| AppList.App.SetFilters | frontend/src/App.tsx:157-159 | Any filter change returns to page 1. |
| AppList.App.PageChange | frontend/src/App.tsx:161-164 | A page change sets the current page and nothing else. |
| AppList.App.PaginatedGames | frontend/src/App.tsx:137-154 | The games shown are the current page of the filtered, sorted list: at most 24, each in the catalog and passing the filters. |
| Pagination.Nums | frontend/src/components/UI/Pagination.tsx:27-29 | The numbers from lo to hi, one entry each, in order. |
| Pagination.PushRange | frontend/src/components/UI/Pagination.tsx:41-43 | The push loop appends exactly the numbers from lo to hi. |
| Pagination.PageWindow | frontend/src/components/UI/Pagination.tsx:21-53 | At most seven entries, starting at page 1 and ending at the last page when there is one, and every listed number is a real page, for any current page; `LargeWindowLayout`, `LargeWindowShape` and `LargeWindowOrdered` give the full layout. |
| Pagination.GetPageNumbers | frontend/src/components/UI/Pagination.tsx:21-53 | The page list built by the pushes is the page window. |
| Pagination.SmallWindowListsAll | frontend/src/components/UI/Pagination.tsx:25-29 | With at most seven pages the list is exactly 1 to the page count, with no ellipsis. |
| Pagination.LargeWindowLayout | frontend/src/components/UI/Pagination.tsx:31-50 | With more than seven pages: 1, an optional ellipsis, `max(2,cur-1)` to `min(total-1,cur+1)`, an optional ellipsis, the last page. |
| Pagination.LargeWindowShape | frontend/src/components/UI/Pagination.tsx:31-50 | It starts with 1, ends with the last page, and holds the current page and its neighbours. There is an ellipsis after 1 iff `cur > 3`, one before the last iff `cur < total-2`, and at most seven entries. |
| Pagination.LargeWindowOrdered | frontend/src/components/UI/Pagination.tsx:31-50 | Page numbers lie in range and strictly increase. Adjacent numbers are consecutive, and each ellipsis hides at least one page. |
| Pagination.Render | frontend/src/components/UI/Pagination.tsx:13-18 | Nothing renders iff there is at most one page. Previous is disabled iff on page 1, Next iff on the last page. The bounds are `(cur-1)*per+1` and `min(cur*per, total)`. |
| Pagination.ShownRangeBounds | frontend/src/components/UI/Pagination.tsx:17-18 | For a page in range, `1 <= startItem <= endItem <= total`. |
| Pagination.ButtonsStayInRange | frontend/src/components/UI/Pagination.tsx:67-98 | An enabled Previous or Next leads to a page in range. |
| Pagination.ShownCountMatchesPage | frontend/src/components/UI/Pagination.tsx:17-18 | With 24 per page, the bar's "X to Y" counts exactly the games on the current page. |
| BrowserCache.SetStore | frontend/src/utils/cache.ts:19-34 | `set` stores under the prefixed key an entry stamped `now` that expires at `now + ttl`; other keys are unchanged. |
| BrowserCache.GetResult | frontend/src/utils/cache.ts:39-60 | `get` returns the data iff the prefixed key holds a readable entry with `now <= expiresAt`. |
| BrowserCache.GetStore | frontend/src/utils/cache.ts:41-53 | `get` deletes exactly an expired entry of its own key and changes nothing else. |
| BrowserCache.RemoveStore | frontend/src/utils/cache.ts:65-71 | `remove` deletes only the prefixed key. |
| BrowserCache.ClearAllStore | frontend/src/utils/cache.ts:76-87 | `clearAll` keeps exactly the keys without the `gamepass_` prefix. |
| BrowserCache.CacheAge | frontend/src/utils/cache.ts:92-106 | The age is the floor of the elapsed minutes, and none iff the key is missing or unreadable. |
| BrowserCache.SetThenGet | frontend/src/utils/cache.ts:19-55 | Reading back at any time up to expiry gives the written data, and the read changes nothing. |
| BrowserCache.SetThenGetExpired | frontend/src/utils/cache.ts:50-53 | A read after expiry gives nothing and removes the entry. |
| BrowserCache.GetCorrupt | frontend/src/utils/cache.ts:47-59 | An unreadable item reads as nothing and stays in storage. |
| BrowserCache.ClearAllProperties | frontend/src/utils/cache.ts:76-87 | After `clearAll` every read and age is none, foreign keys are kept, and clearing twice equals clearing once. |
| BrowserCache.ForeignKeysUntouched | frontend/src/utils/cache.ts:12 | `set`, `remove` and `get` never touch a key without the prefix. |
| BrowserCache.AgeIgnoresExpiry | frontend/src/utils/cache.ts:92-106 | The age of an expired entry is still reported, while `get` gives nothing. |
| BrowserCache.CacheService.constructor | frontend/src/utils/cache.ts:15 | The service starts over the given storage. |
| BrowserCache.CacheService.Set | frontend/src/utils/cache.ts:19-34 | The new storage is `SetStore` of the old. |
| BrowserCache.CacheService.Get | frontend/src/utils/cache.ts:39-60 | The result is `GetResult` and the new storage is `GetStore` of the old. |
| BrowserCache.CacheService.Remove | frontend/src/utils/cache.ts:65-71 | The new storage is `RemoveStore` of the old. |
| BrowserCache.CacheService.ClearAll | frontend/src/utils/cache.ts:76-87 | The loop over the keys leaves `ClearAllStore` of the old storage. |
| BrowserCache.CacheService.GetCacheAge | frontend/src/utils/cache.ts:92-106 | The result is `CacheAge` of the storage, which is unchanged. |
| FrontendGameService.Normalize | frontend/src/services/GameService.ts:35-43 | Id, title and release date are copied. Platforms default to `Console` only when missing, so an empty list stays. Genres default to `[]`. A truthy description is copied and a falsy one becomes empty. A truthy cover is copied and a falsy one becomes the fallback URL. |
| FrontendGameService.NormalizeAll | frontend/src/services/GameService.ts:35-43 | Every game of the response is normalized, in order. |
| FrontendGameService.NormalizeBackendCard | frontend/src/services/GameService.ts:35-43 | A backend card keeps all its fields, and a card without a cover gets the fallback URL. |
| FrontendGameService.GamesKeyInjective | frontend/src/services/GameService.ts:12-13 | The key `games_<platform>` (default `console`) determines the platform. |
| FrontendGameService.GetGamesStep | frontend/src/services/GameService.ts:12-61 | A cache hit returns the data with no fetch and no write. A miss fetches and stores either the normalized list for 30 minutes or, on failure, the mock list for 5 minutes. |
| FrontendGameService.RepeatWithinTtl | frontend/src/services/GameService.ts:46-58 | A second call within the chosen lifetime returns the same games without fetching. |
| FrontendGameService.MockExpiresAfterFiveMinutes | frontend/src/services/GameService.ts:58 | Just after five minutes the mock list has expired and the backend is asked again. |
| FrontendGameService.GetGames | frontend/src/services/GameService.ts:12-61 | Run against the cache, `getGames` gives `GetGamesStep`'s games, storage and fetch flag. |
| FrontendGameService.SearchGames | frontend/src/services/GameService.ts:67-92 | The normalized results, or `[]` on failure. |
| FrontendGameService.ClearCache | frontend/src/services/GameService.ts:97-100 | Clearing is the cache's `clearAll`. |
| FrontendGameService.FetchAfterClear | frontend/src/services/GameService.ts:97-100 | After clearing, the next `getGames` fetches. |
| Metacritic.ReplaceSpaceRuns | frontend/src/services/MetacriticService.ts:32 | The replacement leaves no white space and never lengthens the text. |
| Metacritic.ReplaceNoSpace | frontend/src/services/MetacriticService.ts:32 | Text without white space is unchanged. |
| Metacritic.ReplaceWordThenRun | frontend/src/services/MetacriticService.ts:32 | A whole run of white space becomes one `-`. |
| Metacritic.Slug | frontend/src/services/MetacriticService.ts:32 | The slug has no white space and is no longer than the title. |
| Metacritic.SlugTwoWords | frontend/src/services/MetacriticService.ts:32 | Two words joined by a space give `word1-word2`, lower-cased. |
| Metacritic.FallbackScore | frontend/src/services/MetacriticService.ts:39 | `60 + (length*3) % 30` is a multiple of 3 between 60 and 87. |
| Metacritic.GetScore | frontend/src/services/MetacriticService.ts:23-46 | The status is always available. A known title gets its table score and review URL; any other title gets the fallback score and `#`. |
| Metacritic.ScoreRange | frontend/src/services/MetacriticService.ts:4-46 | Every score handed out lies between 60 and 93. |
| ScoreBadge.BadgeFor | frontend/src/components/Game/ScoreBadge.tsx:10-41 | Loading wins over any score; no score shows a dash; otherwise the text is the score, green iff at least 75, yellow iff 50 to 74, red iff below 50. |
| ScoreBadge.BadgeOf | frontend/src/components/Game/GameCard.tsx:49-52 | A game without score data shows a dash; a loading score shows the placeholder; otherwise a missing score shows a dash and a present one is shown with its value. |
| ScoreBadge.InitialCardsPulse | frontend/src/components/Game/ScoreBadge.tsx:11-15 | Right after the catalog loads every card shows the placeholder. |
| ScoreBadge.NotFoundShowsDash | frontend/src/components/Game/ScoreBadge.tsx:17-26 | A failed score request shows a dash. |
| ScoreBadge.MockScoresNeverRed | frontend/src/components/Game/ScoreBadge.tsx:28-30 | Scores from the mock service show as the score and are never red. |

## Left out

- HTTP requests are not modelled. The axios calls and the client's `fetch` are replaced by abstract outcomes, and their URLs, parameters and headers are not represented.
- The bundled mock list, loaded by dynamic import, is a parameter.
- `Date.now()` is the argument `now`. `getAllGames` reads the clock twice, for validity and for the new stamp; the model uses one `now` for both. `CacheService.Set` likewise reads the clock twice, for `timestamp` and for `expiresAt`; the model uses one `now`, so `expiresAt - timestamp` is exactly the time-to-live.
- Concurrency is not modelled: neither two simultaneous misses on the same key, nor the fire-and-forget score requests. Only a single score update is modelled, and `UpdateScoreCommutes` shows that their order does not matter.
- JSON is not modelled. Serialization, `localStorage` quota errors and the swallowed errors of `set` and `remove` are left out. An unreadable item is `Corrupt`; JSON that parses to something other than an entry is not represented.
- Date parsing is not modelled. The release-year filter takes the year of a date as an abstract function, and `availableYears`, which is built entirely from parsed dates, is not modelled.
- AppList.SortLe: `localeCompare` is an abstract comparator. For `az` and `newest` only the permutation property is proved, and stability of the sort is not proved.
- AppList.AvailableGenres: the genres are ordered by Unicode code point, while the default `sort()` compares UTF-16 code units. The two orders differ when a character outside the Basic Multilingual Plane meets one in U+E000 to U+FFFF, so such genres can appear in a different order.
- `toLowerCase` is ASCII-only. String lengths count Unicode scalar values, not UTF-16 code units, so the fallback score of a title outside the Basic Multilingual Plane can differ.
- Map lookups ignore prototype keys: a title such as `constructor` is looked up as a plain key in `MOCK_SCORES`.
- The simulated delay (`setTimeout` and `Math.random`) of the score service is dropped.
- Logging is left out, including the age lookup `getGames` does only to log it.
- Rendering, CSS, scrolling and reloading are left out, as are the Express wiring and the parsing of environment variables. The configuration constants are `DefaultConfig`.
- BackendRoutes.StringOrUndefined: a non-string query value (an array or an object) is represented by the string it converts to. An empty array is truthy but converts to `""`; the model then falls back to the configured market or language where the code would use `""` in the key.
- AppList.PageSlice: for a page below 1, `slice` receives negative bounds that count from the end. The model computes them with the same clamping, but proves the slice form only for pages from 1 up.
- Metacritic.Slug: the slug is proved free of white space and not longer than the title, and exact for two words; a full equation for arbitrary titles is not stated.
