/** The list logic of the client's main page: the genre list offered by the
    filter panel, the conjunctive filters and the sort, page count and page
    slicing, and the per-game score update; then the page's state as a class
    whose methods are the state setters. */
module AppList {
  import opened Common
  import opened FrontendTypes

  const ItemsPerPage: nat := 24

  // ---------------------------------------------------------------------------
  // The genre list: a set filled game by game, then sorted.

  function ElemSet(s: seq<string>): set<string> {
    set x | x in s
  }

  /** Every genre of every game. */
  function GenresOf(games: seq<GameWithScore>): (r: set<string>)
    ensures forall x :: x in r <==> exists i :: 0 <= i < |games| && x in games[i].game.genres
  {
    if games == [] then {}
    else
      var init := games[..|games| - 1];
      assert forall i :: 0 <= i < |init| ==> init[i] == games[i];
      GenresOf(init) + ElemSet(games[|games| - 1].game.genres)
  }

  lemma ConsSorted(y: string, r: seq<string>)
    requires StrictlySorted(r)
    requires forall z :: z in r ==> StrLess(y, z)
    ensures StrictlySorted([y] + r)
  {
    forall i, j | 0 <= i < j < |[y] + r| ensures StrLess(([y] + r)[i], ([y] + r)[j]) {
      if i == 0 {
        assert ([y] + r)[j] == r[j - 1];
      } else {
        assert ([y] + r)[i] == r[i - 1] && ([y] + r)[j] == r[j - 1];
      }
    }
  }

  /** Insertion into a strictly increasing list of a string not already in it. */
  function InsertSorted(s: seq<string>, x: string): (r: seq<string>)
    requires StrictlySorted(s) && x !in s
    ensures StrictlySorted(r) && |r| == |s| + 1
    ensures forall y :: y in r <==> y in s || y == x
  {
    if s == [] then [x]
    else if StrLess(x, s[0]) then
      forall z | z in s ensures StrLess(x, z) {
        if z != s[0] {
          var j :| 0 <= j < |s| && s[j] == z;
          StrLessTransitive(x, s[0], z);
        }
      }
      ConsSorted(x, s);
      [x] + s
    else
      StrLessTotal(x, s[0]);
      var r := InsertSorted(s[1..], x);
      assert forall y :: y in s <==> y == s[0] || y in s[1..];
      forall z | z in r ensures StrLess(s[0], z) {
        if z != x {
          var j :| 0 <= j < |s[1..]| && s[1..][j] == z;
          assert s[1..][j] == s[j + 1];
        }
      }
      ConsSorted(s[0], r);
      [s[0]] + r
  }

  /** `Array.from(genreSet).sort()`: every genre occurring in some game, once,
      in ascending code-point order. */
  method AvailableGenres(games: seq<GameWithScore>) returns (genres: seq<string>)
    ensures StrictlySorted(genres) && NoDuplicates(genres)
    ensures forall x :: x in genres <==> exists i :: 0 <= i < |games| && x in games[i].game.genres
  {
    var seen: set<string> := {};
    for i := 0 to |games|
      invariant seen == GenresOf(games[..i])
    {
      var gs := games[i].game.genres;
      for j := 0 to |gs|
        invariant seen == GenresOf(games[..i]) + ElemSet(gs[..j])
      {
        assert gs[..j + 1] == gs[..j] + [gs[j]];
        seen := seen + {gs[j]};
      }
      assert gs[..|gs|] == gs;
      assert games[..i + 1][..i] == games[..i];
    }
    assert games[..|games|] == games;
    genres := [];
    var rest := seen;
    while rest != {}
      invariant rest <= seen
      invariant StrictlySorted(genres)
      invariant forall x :: x in genres <==> x in seen && x !in rest
      decreases rest
    {
      var x :| x in rest;
      genres := InsertSorted(genres, x);
      rest := rest - {x};
    }
    StrictlySortedNoDuplicates(genres);
  }

  // ---------------------------------------------------------------------------
  // Filters. A disabled filter (empty text, `all` year, minimum score 0)
  // lets every game through.

  /** `g.metacritic?.score || 0`. */
  function FilterScore(g: GameWithScore): int {
    if g.metacritic.Some? && g.metacritic.value.score.Some? then g.metacritic.value.score.value else 0
  }

  /** `g.metacritic?.score ?? -1`. */
  function SortScore(g: GameWithScore): int {
    if g.metacritic.Some? && g.metacritic.value.score.Some? then g.metacritic.value.score.value else -1
  }

  predicate PassSearch(g: GameWithScore, f: FilterState) {
    f.search == "" || Includes(Lower(g.game.title), Lower(f.search))
  }

  predicate PassGenre(g: GameWithScore, f: FilterState) {
    f.genre == "" || f.genre in g.game.genres
  }

  /** `yearOf` stands for `new Date(d).getFullYear().toString()`. */
  predicate PassYear(g: GameWithScore, f: FilterState, yearOf: string -> string) {
    f.releaseYear == "" || f.releaseYear == "all"
    || (Truthy(g.game.releaseDate) && yearOf(g.game.releaseDate.value) == f.releaseYear)
  }

  predicate PassScore(g: GameWithScore, f: FilterState) {
    f.minScore <= 0 || FilterScore(g) >= f.minScore
  }

  predicate PassesFilters(g: GameWithScore, f: FilterState, yearOf: string -> string) {
    PassSearch(g, f) && PassGenre(g, f) && PassYear(g, f, yearOf) && PassScore(g, f)
  }

  function SearchPred(f: FilterState): GameWithScore -> bool {
    g => PassSearch(g, f)
  }

  function GenrePred(f: FilterState): GameWithScore -> bool {
    g => PassGenre(g, f)
  }

  function YearPred(f: FilterState, yearOf: string -> string): GameWithScore -> bool {
    g => PassYear(g, f, yearOf)
  }

  function ScorePred(f: FilterState): GameWithScore -> bool {
    g => PassScore(g, f)
  }

  function FiltersPred(f: FilterState, yearOf: string -> string): GameWithScore -> bool {
    g => PassesFilters(g, f, yearOf)
  }

  /** The four filters one after the other, as the page applies them. */
  function ApplyFilters(games: seq<GameWithScore>, f: FilterState, yearOf: string -> string): seq<GameWithScore> {
    Filter(Filter(Filter(Filter(games, SearchPred(f)), GenrePred(f)), YearPred(f, yearOf)), ScorePred(f))
  }

  /** Applying the filters in turn is filtering once by their conjunction. */
  lemma ApplyFiltersIsConjunction(games: seq<GameWithScore>, f: FilterState, yearOf: string -> string)
    ensures ApplyFilters(games, f, yearOf) == Filter(games, FiltersPred(f, yearOf))
  {
    var p12 := g => PassSearch(g, f) && PassGenre(g, f);
    var p123 := g => PassSearch(g, f) && PassGenre(g, f) && PassYear(g, f, yearOf);
    FilterFilter(games, SearchPred(f), GenrePred(f), p12);
    FilterFilter(games, p12, YearPred(f, yearOf), p123);
    FilterFilter(games, p123, ScorePred(f), FiltersPred(f, yearOf));
  }

  // ---------------------------------------------------------------------------
  // Sorting. `Array.prototype.sort` is stable; it is specified here by a
  // stable insertion sort under "a may precede b" (`le(a, b)`, that is, the
  // comparator gives a value `<= 0`).

  function Insert<T>(x: T, s: seq<T>, le: (T, T) -> bool): (r: seq<T>)
    ensures multiset(r) == multiset(s) + multiset{x}
  {
    if s == [] || le(x, s[0]) then [x] + s
    else
      assert s == [s[0]] + s[1..];
      [s[0]] + Insert(x, s[1..], le)
  }

  function SortBy<T>(s: seq<T>, le: (T, T) -> bool): (r: seq<T>)
    ensures multiset(r) == multiset(s)
  {
    if s == [] then []
    else
      assert s == [s[0]] + s[1..];
      Insert(s[0], SortBy(s[1..], le), le)
  }

  ghost predicate TotalPreorder<T(!new)>(le: (T, T) -> bool) {
    && (forall a, b :: le(a, b) || le(b, a))
    && (forall a, b, c :: le(a, b) && le(b, c) ==> le(a, c))
  }

  predicate SortedBy<T>(s: seq<T>, le: (T, T) -> bool) {
    forall i, j :: 0 <= i < j < |s| ==> le(s[i], s[j])
  }

  lemma ConsSortedBy<T>(y: T, r: seq<T>, le: (T, T) -> bool)
    requires SortedBy(r, le)
    requires forall z :: z in r ==> le(y, z)
    ensures SortedBy([y] + r, le)
  {
    forall i, j | 0 <= i < j < |[y] + r| ensures le(([y] + r)[i], ([y] + r)[j]) {
      if i == 0 {
        assert ([y] + r)[j] == r[j - 1];
      } else {
        assert ([y] + r)[i] == r[i - 1] && ([y] + r)[j] == r[j - 1];
      }
    }
  }

  lemma {:induction false} InsertKeepsSorted<T(!new)>(x: T, s: seq<T>, le: (T, T) -> bool)
    requires TotalPreorder(le) && SortedBy(s, le)
    ensures SortedBy(Insert(x, s, le), le)
  {
    if s == [] {
    } else if le(x, s[0]) {
      forall z | z in s ensures le(x, z) {
        var j :| 0 <= j < |s| && s[j] == z;
        if j > 0 {
          assert le(s[0], s[j]);
        }
      }
      ConsSortedBy(x, s, le);
    } else {
      assert SortedBy(s[1..], le) by {
        forall i, j | 0 <= i < j < |s[1..]| ensures le(s[1..][i], s[1..][j]) {
          assert s[1..][i] == s[i + 1] && s[1..][j] == s[j + 1];
        }
      }
      InsertKeepsSorted(x, s[1..], le);
      var r := Insert(x, s[1..], le);
      forall z | z in r ensures le(s[0], z) {
        assert z in multiset(r);
        if z != x {
          assert z in multiset(s[1..]);
          var j :| 0 <= j < |s[1..]| && s[1..][j] == z;
          assert s[1..][j] == s[j + 1];
        }
      }
      ConsSortedBy(s[0], r, le);
    }
  }

  /** Under a total preorder, the insertion sort orders its input. */
  lemma {:induction false} SortBySorted<T(!new)>(s: seq<T>, le: (T, T) -> bool)
    requires TotalPreorder(le)
    ensures SortedBy(SortBy(s, le), le)
  {
    if s != [] {
      SortBySorted(s[1..], le);
      InsertKeepsSorted(s[0], SortBy(s[1..], le), le);
    }
  }

  /** The comparator chosen by the sort option. `compare` stands for
      `String.prototype.localeCompare`. */
  function SortLe(f: FilterState, compare: (string, string) -> int): (le: (GameWithScore, GameWithScore) -> bool)
    ensures f.sort == Az ==>
      forall a, b :: le(a, b) <==> compare(a.game.title, b.game.title) <= 0
    ensures f.sort == Newest ==>
      forall a, b :: le(a, b) <==> compare(OrElse(b.game.releaseDate, ""), OrElse(a.game.releaseDate, "")) <= 0
    ensures f.sort == ScoreDesc ==> forall a, b :: le(a, b) <==> SortScore(a) >= SortScore(b)
  {
    match f.sort
    case Az => (a: GameWithScore, b: GameWithScore) => compare(a.game.title, b.game.title) <= 0
    case Newest => (a: GameWithScore, b: GameWithScore) =>
      compare(OrElse(b.game.releaseDate, ""), OrElse(a.game.releaseDate, "")) <= 0
    case ScoreDesc => (a: GameWithScore, b: GameWithScore) => SortScore(b) - SortScore(a) <= 0
  }

  lemma ScoreDescIsTotalPreorder(f: FilterState, compare: (string, string) -> int)
    requires f.sort == ScoreDesc
    ensures TotalPreorder(SortLe(f, compare))
  {
  }

  /** The four filter steps, each skipped when its filter is off. */
  method RunFilters(games: seq<GameWithScore>, filters: FilterState, yearOf: string -> string)
    returns (result: seq<GameWithScore>)
    ensures result == Filter(games, FiltersPred(filters, yearOf))
  {
    result := games;
    if filters.search != "" {
      result := Filter(result, SearchPred(filters));
    } else {
      FilterKeepsAll(result, SearchPred(filters));
    }
    if filters.genre != "" {
      result := Filter(result, GenrePred(filters));
    } else {
      FilterKeepsAll(result, GenrePred(filters));
    }
    if filters.releaseYear != "" && filters.releaseYear != "all" {
      result := Filter(result, YearPred(filters, yearOf));
    } else {
      FilterKeepsAll(result, YearPred(filters, yearOf));
    }
    if filters.minScore > 0 {
      result := Filter(result, ScorePred(filters));
    } else {
      FilterKeepsAll(result, ScorePred(filters));
    }
    assert result == ApplyFilters(games, filters, yearOf);
    ApplyFiltersIsConjunction(games, filters, yearOf);
  }

  /** `filteredGames`: the games passing every active filter, in the chosen
      order; under `score_desc` the scores do not increase. */
  method FilteredGames(games: seq<GameWithScore>, filters: FilterState, yearOf: string -> string,
                       compare: (string, string) -> int)
    returns (result: seq<GameWithScore>)
    ensures result == SortBy(Filter(games, FiltersPred(filters, yearOf)), SortLe(filters, compare))
    ensures multiset(result) == multiset(Filter(games, FiltersPred(filters, yearOf)))
    ensures forall g :: g in result <==> g in games && PassesFilters(g, filters, yearOf)
    ensures filters.sort == ScoreDesc ==>
      forall i, j :: 0 <= i < j < |result| ==> SortScore(result[i]) >= SortScore(result[j])
  {
    var passing := RunFilters(games, filters, yearOf);
    result := SortBy(passing, SortLe(filters, compare));
    assert forall g :: g in result <==> g in multiset(passing);
    forall g ensures g in passing <==> g in games && PassesFilters(g, filters, yearOf) {
      if g in games && PassesFilters(g, filters, yearOf) {
        var i :| 0 <= i < |games| && games[i] == g;
        assert FiltersPred(filters, yearOf)(games[i]);
      }
      if g in passing {
        assert FiltersPred(filters, yearOf)(g);
      }
    }
    if filters.sort == ScoreDesc {
      ScoreDescIsTotalPreorder(filters, compare);
      SortBySorted(passing, SortLe(filters, compare));
      forall i, j | 0 <= i < j < |result| ensures SortScore(result[i]) >= SortScore(result[j]) {
        assert SortLe(filters, compare)(result[i], result[j]);
      }
    }
  }

  // ---------------------------------------------------------------------------
  // Pages of 24.

  /** `Math.ceil(totalItems / 24)`. */
  function TotalPages(totalItems: nat): (r: nat)
    ensures totalItems == 0 ==> r == 0
    ensures totalItems > 0 ==> (r - 1) * ItemsPerPage < totalItems <= r * ItemsPerPage
  {
    (totalItems + 23) / 24
  }

  /** `filteredGames.slice((page - 1) * 24, (page - 1) * 24 + 24)`. */
  function PageSlice<T>(items: seq<T>, page: int): (r: seq<T>)
    ensures |r| <= ItemsPerPage
    ensures page >= 1 ==>
      r == items[Min((page - 1) * ItemsPerPage, |items|)..Min(page * ItemsPerPage, |items|)]
  {
    JsSlice(items, (page - 1) * ItemsPerPage, (page - 1) * ItemsPerPage + ItemsPerPage)
  }

  function Min(a: int, b: int): int {
    if a <= b then a else b
  }

  /** Pages 1 to k, in order. */
  function PagesUpTo<T>(items: seq<T>, k: nat): seq<seq<T>> {
    if k == 0 then [] else PagesUpTo(items, k - 1) + [PageSlice(items, k)]
  }

  lemma {:induction false} PagesUpToPrefix<T>(items: seq<T>, k: nat)
    ensures Flatten(PagesUpTo(items, k)) == items[..Min(k * ItemsPerPage, |items|)]
  {
    if k > 0 {
      PagesUpToPrefix(items, k - 1);
      FlattenAppend(PagesUpTo(items, k - 1), [PageSlice(items, k)]);
      assert Flatten([PageSlice(items, k)]) == PageSlice(items, k) + Flatten([PageSlice(items, k)][1..]);
      assert [PageSlice(items, k)][1..] == [];
    }
  }

  /** Every page from 1 to the page count holds at least one item, and the
      pages together give back the whole list in order. */
  lemma PagesCoverList<T>(items: seq<T>)
    ensures Flatten(PagesUpTo(items, TotalPages(|items|))) == items
    ensures forall p :: 1 <= p <= TotalPages(|items|) ==> |PageSlice(items, p)| >= 1
  {
    PagesUpToPrefix(items, TotalPages(|items|));
    assert items[..|items|] == items;
  }

  // ---------------------------------------------------------------------------
  // Scores arriving one game at a time.

  const LoadingScore := MetacriticData(None, None, Loading)
  const NotFoundScore := MetacriticData(None, None, NotFound)

  /** The catalog as first shown: every score loading. */
  function InitialScores(catalog: seq<Game>): (r: seq<GameWithScore>)
    ensures |r| == |catalog|
    ensures forall i :: 0 <= i < |catalog| ==> r[i] == GameWithScore(catalog[i], Some(LoadingScore))
  {
    if catalog == [] then []
    else [GameWithScore(catalog[0], Some(LoadingScore))] + InitialScores(catalog[1..])
  }

  /** While every score is loading, any positive minimum score hides every
      game, and the score sort sees every game as unscored. */
  lemma LoadingScoresFilteredOut(catalog: seq<Game>, f: FilterState, yearOf: string -> string)
    requires f.minScore > 0
    ensures Filter(InitialScores(catalog), FiltersPred(f, yearOf)) == []
    ensures forall g :: g in InitialScores(catalog) ==> SortScore(g) == -1
  {
  }

  /** `prev.map(g => g.id === id ? { ...g, metacritic: data } : g)`. */
  function UpdateScore(games: seq<GameWithScore>, id: string, data: MetacriticData): (r: seq<GameWithScore>)
    ensures |r| == |games|
    ensures forall i :: 0 <= i < |games| ==> r[i].game == games[i].game
    ensures forall i :: 0 <= i < |games| && games[i].game.id == id ==> r[i].metacritic == Some(data)
    ensures forall i :: 0 <= i < |games| && games[i].game.id != id ==> r[i] == games[i]
  {
    if games == [] then []
    else
      var g := games[0];
      [if g.game.id == id then g.(metacritic := Some(data)) else g] + UpdateScore(games[1..], id, data)
  }

  /** Updates for two different games commute: the order in which the scores
      arrive does not matter. */
  lemma UpdateScoreCommutes(games: seq<GameWithScore>, id1: string, d1: MetacriticData, id2: string, d2: MetacriticData)
    requires id1 != id2
    ensures UpdateScore(UpdateScore(games, id1, d1), id2, d2) == UpdateScore(UpdateScore(games, id2, d2), id1, d1)
  {
  }

  /** Of two updates for the same game, the later one wins. */
  lemma UpdateScoreLastWins(games: seq<GameWithScore>, id: string, d1: MetacriticData, d2: MetacriticData)
    ensures UpdateScore(UpdateScore(games, id, d1), id, d2) == UpdateScore(games, id, d2)
  {
  }

  /** An update for an id no game has changes nothing. */
  lemma UpdateScoreUnknownId(games: seq<GameWithScore>, id: string, data: MetacriticData)
    requires forall i :: 0 <= i < |games| ==> games[i].game.id != id
    ensures UpdateScore(games, id, data) == games
  {
  }

  // ---------------------------------------------------------------------------
  // The page's state.

  const LoadErrorMessage := "Failed to load Game Pass catalog."

  class App {
    var games: seq<GameWithScore>
    var loading: bool
    var error: Option<string>
    var currentPage: int
    var filters: FilterState

    constructor ()
      ensures games == [] && loading && error == None && currentPage == 1 && filters == InitialFilters
    {
      games := [];
      loading := true;
      error := None;
      currentPage := 1;
      filters := InitialFilters;
    }

    /** The catalog arrived: show it with every score loading. */
    method CatalogLoaded(catalog: seq<Game>)
      modifies this
      ensures games == InitialScores(catalog) && !loading
      ensures error == old(error) && currentPage == old(currentPage) && filters == old(filters)
    {
      games := InitialScores(catalog);
      loading := false;
    }

    method CatalogFailed()
      modifies this
      ensures error == Some(LoadErrorMessage) && !loading
      ensures games == old(games) && currentPage == old(currentPage) && filters == old(filters)
    {
      error := Some(LoadErrorMessage);
      loading := false;
    }

    /** A score arrived for one game. */
    method ScoreArrived(id: string, data: MetacriticData)
      modifies this
      ensures games == UpdateScore(old(games), id, data)
      ensures loading == old(loading) && error == old(error) && currentPage == old(currentPage) && filters == old(filters)
    {
      games := UpdateScore(games, id, data);
    }

    /** The score request for one game failed. */
    method ScoreFailed(id: string)
      modifies this
      ensures games == UpdateScore(old(games), id, NotFoundScore)
      ensures loading == old(loading) && error == old(error) && currentPage == old(currentPage) && filters == old(filters)
    {
      games := UpdateScore(games, id, NotFoundScore);
    }

    /** Changing any filter returns to the first page. */
    method SetFilters(f: FilterState)
      modifies this
      ensures filters == f && currentPage == 1
      ensures games == old(games) && loading == old(loading) && error == old(error)
    {
      filters := f;
      currentPage := 1;
    }

    method PageChange(page: int)
      modifies this
      ensures currentPage == page
      ensures games == old(games) && loading == old(loading) && error == old(error) && filters == old(filters)
    {
      currentPage := page;
    }

    /** The games shown: the current page of the filtered, sorted list. */
    method PaginatedGames(yearOf: string -> string, compare: (string, string) -> int)
      returns (page: seq<GameWithScore>, totalPages: nat)
      ensures var all := SortBy(Filter(games, FiltersPred(filters, yearOf)), SortLe(filters, compare));
        page == PageSlice(all, currentPage) && totalPages == TotalPages(|all|)
      ensures |page| <= ItemsPerPage
      ensures forall g :: g in page ==> g in games && PassesFilters(g, filters, yearOf)
    {
      var all := FilteredGames(games, filters, yearOf, compare);
      totalPages := TotalPages(|all|);
      page := PageSlice(all, currentPage);
      forall g | g in page ensures g in all {
        var k :| 0 <= k < |page| && page[k] == g;
        JsSliceMember(all, (currentPage - 1) * ItemsPerPage, (currentPage - 1) * ItemsPerPage + ItemsPerPage, k);
      }
    }
  }

  /** Every element of a slice is an element of the list. */
  lemma JsSliceMember<T>(s: seq<T>, start: int, end: int, k: int)
    requires 0 <= k < |JsSlice(s, start, end)|
    ensures JsSlice(s, start, end)[k] in s
  {
    var a := ClampIndex(start, |s|);
    var b := ClampIndex(end, |s|);
    assert JsSlice(s, start, end)[k] == s[a + k];
  }
}
