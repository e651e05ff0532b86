/**
 * The search page (`src/pages/SearchPage.tsx`): the staged query and genre
 * filters over the seed catalog, and the page's three state fields.
 */
module SearchPage {
  import opened Wrappers
  import opened LensTypes
  import opened Text
  import opened Seqs
  import SearchBar
  import MockData

  /** The query stage: title, description or some genre contains the query, ignoring case. */
  predicate QueryMatch(a: Anime, query: string) {
    var q := Lower(query);
    Contains(Lower(a.title), q) || Contains(Lower(a.description), q) || SearchBar.SomeGenreContains(a.genres, q)
  }

  /** `filters.genre && filters.genre !== 'All'`: the empty string is falsy, so it switches the stage off too. */
  predicate GenreFilterActive(genre: Option<string>) {
    genre.Some? && genre.value != "" && genre.value != "All"
  }

  /** The genre stage, when active: the exact, case-sensitive `genres.includes(genre)`. */
  predicate GenreMatch(a: Anime, genre: Option<string>) {
    !GenreFilterActive(genre) || genre.value in a.genres
  }

  /** The query stage on its own: skipped for the empty query. */
  function QueryStage(catalog: seq<Anime>, searchQuery: string): (r: seq<Anime>)
    ensures forall a :: a in r <==> a in catalog && (searchQuery == "" || QueryMatch(a, searchQuery))
    ensures forall a :: multiset(r)[a] == if searchQuery == "" || QueryMatch(a, searchQuery) then multiset(catalog)[a] else 0
    ensures IsSubseq(r, catalog)
  {
    if searchQuery != "" then Filter(catalog, a => QueryMatch(a, searchQuery))
    else SubseqRefl(catalog); catalog
  }

  /**
   * `filteredAnimes`: the query stage, then the genre stage. An entry is shown
   * exactly when it is in the catalog and passes both stages, and the
   * catalog order is kept.
   */
  function FilteredAnimes(catalog: seq<Anime>, searchQuery: string, filters: AnimeFilter): (r: seq<Anime>)
    ensures forall a :: a in r <==>
      a in catalog && (searchQuery == "" || QueryMatch(a, searchQuery)) && GenreMatch(a, filters.genre)
    ensures forall a :: multiset(r)[a] == if (searchQuery == "" || QueryMatch(a, searchQuery)) && GenreMatch(a, filters.genre) then multiset(catalog)[a] else 0
    ensures IsSubseq(r, catalog)
  {
    var afterQuery := QueryStage(catalog, searchQuery);
    if GenreFilterActive(filters.genre) then
      var g := filters.genre.value;
      var r := Filter(afterQuery, (a: Anime) => g in a.genres);
      SubseqTrans(r, afterQuery, catalog);
      r
    else afterQuery
  }

  /** The page state: `filters`, `searchQuery` and `showFilters`. */
  datatype PageState = PageState(filters: AnimeFilter, searchQuery: string, showFilters: bool)

  /** The state on first render: no filters, empty query, filter panel closed. */
  const Initial: PageState := PageState(AnimeFilter(None, None, None), "", false)

  /** The grid the page shows for a state. */
  function Shown(s: PageState): seq<Anime> {
    FilteredAnimes(MockData.MockAnimeData, s.searchQuery, s.filters)
  }

  /** `handleSearchSelect`: the chosen entry's title becomes the page query; nothing else changes. */
  function HandleSearchSelect(s: PageState, anime: Anime): (t: PageState)
    ensures t.searchQuery == anime.title
    ensures t.filters == s.filters && t.showFilters == s.showFilters
  {
    s.(searchQuery := anime.title)
  }

  /** The genre `Select`: `setFilters(prev => ({ ...prev, genre: value }))`. */
  function SelectGenre(s: PageState, value: string): (t: PageState)
    ensures t.filters.genre == Some(value)
    ensures t.filters.format == s.filters.format && t.filters.publisher == s.filters.publisher
    ensures t.searchQuery == s.searchQuery && t.showFilters == s.showFilters
  {
    s.(filters := s.filters.(genre := Some(value)))
  }

  /** The "Clear Filters" button: `setFilters({})`. */
  function ClearFilters(s: PageState): (t: PageState)
    ensures t.filters == AnimeFilter(None, None, None)
    ensures !GenreFilterActive(t.filters.genre)
    ensures t.searchQuery == s.searchQuery && t.showFilters == s.showFilters
  {
    s.(filters := AnimeFilter(None, None, None))
  }

  /** The "Filters" button toggles the panel. */
  function ToggleFilters(s: PageState): (t: PageState)
    ensures t.showFilters == !s.showFilters
    ensures t.filters == s.filters && t.searchQuery == s.searchQuery
  {
    s.(showFilters := !s.showFilters)
  }

  // ---------------------------------------------------------------------------
  // properties
  // ---------------------------------------------------------------------------

  /** With no query and the genre absent, empty or 'All', the whole catalog is shown in order. */
  lemma NoFiltersShowsAll(catalog: seq<Anime>, filters: AnimeFilter)
    requires !GenreFilterActive(filters.genre)
    ensures FilteredAnimes(catalog, "", filters) == catalog
  {
  }

  /** After "Clear Filters" the genre stage is off: only the query decides. */
  lemma ClearFiltersOnlyQueryDecides(s: PageState)
    ensures Shown(ClearFilters(s)) == QueryStage(MockData.MockAnimeData, s.searchQuery)
  {
  }

  /** Choosing 'All' in the genre select shows what "Clear Filters" shows. */
  lemma SelectAllIsClear(s: PageState)
    ensures Shown(SelectGenre(s, "All")) == Shown(ClearFilters(s))
  {
  }

  /** An entry's own title selects it: it contains itself in any case. */
  lemma {:induction false} TitleSelectsItself(a: Anime)
    ensures QueryMatch(a, a.title)
  {
    ContainsSelfAndEmpty(Lower(a.title));
  }

  /**
   * After `handleSearchSelect(a)` with no active genre filter, the entry `a`
   * is on the grid, wherever it sits in the catalog.
   */
  lemma SelectedIsShown(s: PageState, a: Anime)
    requires a in MockData.MockAnimeData
    requires !GenreFilterActive(s.filters.genre)
    ensures a in Shown(HandleSearchSelect(s, a))
  {
    TitleSelectsItself(a);
  }

  /** A typeahead match is a page match: the page looks at the description as well. */
  lemma SuggestionIsQueryMatch(a: Anime, query: string)
    requires SearchBar.SuggestionMatch(a, query)
    ensures QueryMatch(a, query)
  {
  }

  /**
   * Every suggestion the search bar lists for a query is on the page grid
   * for the same query when no genre filter is active.
   */
  lemma SuggestionsAreShown(query: string, filters: AnimeFilter)
    requires !GenreFilterActive(filters.genre)
    ensures forall a :: a in SearchBar.Suggestions(MockData.MockAnimeData, query) ==>
      a in FilteredAnimes(MockData.MockAnimeData, query, filters)
  {
    forall a | a in SearchBar.Suggestions(MockData.MockAnimeData, query)
      ensures a in FilteredAnimes(MockData.MockAnimeData, query, filters)
    {
      SuggestionIsQueryMatch(a, query);
    }
  }
}
