/** The records the browser client works with: a catalog game, its optional
    review score, and the filter panel's state. */
module FrontendTypes {
  import opened Common

  datatype Game = Game(
    id: string,
    title: string,
    platform: seq<string>,
    genres: seq<string>,
    description: string,
    coverUrl: string,
    releaseDate: Option<string>)

  datatype ScoreStatus = Available | NotFound | Loading

  /** A review score; `score` is `null` while loading or when none exists. */
  datatype MetacriticData = MetacriticData(score: Option<int>, url: Option<string>, status: ScoreStatus)

  /** A game with its (optional) score record attached. */
  datatype GameWithScore = GameWithScore(game: Game, metacritic: Option<MetacriticData>)

  datatype SortOption = ScoreDesc | Az | Newest

  datatype FilterState = FilterState(
    search: string,
    genre: string,
    minScore: int,
    sort: SortOption,
    releaseYear: string)

  /** The panel's state when the page opens. */
  const InitialFilters := FilterState("", "", 0, ScoreDesc, "all")
}
