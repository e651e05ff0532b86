# Anime catalog apps: a verified model of the catalog logic

This project models the in-memory logic of two small client-side anime
catalog apps.

The **admin app** (`kaiju-cards`) keeps a list of records in a React
context. The model covers:
- add, update, delete and look up by id;
- the edit form: genre selection, submit validation and record building;
- the list page's search-and-genre filter and its genre dropdown;
- the dashboard's top three by rating and its record count and average.

The **discovery app** (`anime-lens-hub` / `MasterAniview`) queries a fixed
seed catalog of ten entries. The model covers:
- the type-ahead search bar;
- the search page's query and genre pipeline;
- the popularity ranking and the Home carousel;
- the update feed filtered by day and sorted newest first;
- the screen switcher in `Index.tsx`, with its tab, view and selected entry.

Each source module is a Dafny module:

| Dafny module | file | form |
|---|---|---|
| `AnimeContext` | `anime_context.dfy` | functions `Added`, `Updated`, `Deleted`, `Find` over `seq<Anime>`; class `AnimeStore` with the `animeList` field |
| `AnimeFormPage` | `anime_form.dfy` | functions for genre editing and submit; class `AnimeForm` with the `formData` and `newGenre` fields |
| `AnimeListPage` | `anime_list.dfy` | pure filter and genre de-duplication |
| `Dashboard` | `dashboard.dfy` | pure copy, sort and slice; stat computation |
| `MockData` | `mock_data.dfy` | the seed catalog and `genresList` as constants |
| `SearchBar` | `search_bar.dfy` | pure suggestions; class `SearchBarState` with `query`, `results` and `isOpen` |
| `SearchPage` | `search_page.dfy` | pure two-stage filter and page-state transitions |
| `PopularPage` | `popular_page.dfy` | filter then stable sort; podium and grid split |
| `UpdatesPage` | `updates_page.dfy` | day filter then stable sort by date; per-day counts |
| `Home` | `home.dfy` | carousel and recent-updates queries |
| `IndexNav` | `index_nav.dfy` | transition functions; class `Navigator` with the three state fields |

Shared support modules:
- `Wrappers` holds `Option`.
- `Seqs` holds the order-preserving `Filter`, the stable insertion sort `SortBy`, `Take` (JavaScript `slice(0, n)`) and `Distinct` (`Array.from(new Set(..))`), with their lemmas.
- `Text` holds ASCII lower-casing, substring search (`includes`) and the blank test used for `trim()`.
- `LensTypes` holds the discovery app's record type.

Modelling conventions:
- JavaScript's `Array.prototype.sort` has been stable since ECMAScript 2019. It is modelled as an insertion sort on a `real` key, and its stability is proved (`Seqs.SortByStable`): elements with equal keys keep their input order.
- A descending comparator `(a, b) => b.k - a.k` is an ascending sort on the key `-k`.
- A `lastUpdate` date string is the day number within January 2024, so `'2024-01-13'` is 13.
- Ratings are exact `real`s.
- Route ids reach the form already parsed, as an `Option<int>`.

Three behaviours of the code that a reader might not expect:
- `handleBack` from the Updates view sets both the view and the tab to Home.
- `handleShowUpdates` leaves the active tab alone. An entry opened from Updates therefore returns to the active tab's view, not to Updates. On the screens the UI offers, Updates is only reachable from Home, so that view is Home (`IndexNav.BackFromUpdatesGoesHome`).
- The popularity filter `anime.popularity && anime.popularity <= 10` drops an absent or zero rank but keeps a negative one.

## Model

| member | source | states |
|---|---|---|
| AnimeContext.WithId | Downloads/kaiju-cards-main/src/contexts/AnimeContext.tsx:87-90 | the new record carries the given id and exactly the submitted fields |
| AnimeContext.MergeAsUpdate | Downloads/kaiju-cards-main/src/contexts/AnimeContext.tsx:97 | merging a full record (with description) into an entry replaces every field but the id |
| AnimeContext.MaxId | Downloads/kaiju-cards-main/src/contexts/AnimeContext.tsx:86 | `Math.max(...ids, 0)` is at least 0, bounds every id, and is 0 or some present id |
| AnimeContext.NextId | Downloads/kaiju-cards-main/src/contexts/AnimeContext.tsx:86 | the new id is at least 1, exceeds every id present, and is 1 or one more than a present id |
| AnimeContext.Added | Downloads/kaiju-cards-main/src/contexts/AnimeContext.tsx:85-92 | the list grows by one; the new record is at index 0 with a fresh id; the old list follows unchanged |
| AnimeContext.Updated | Downloads/kaiju-cards-main/src/contexts/AnimeContext.tsx:94-100 | same length and order; entries whose id matches are merged with the update, all others are unchanged |
| AnimeContext.Deleted | Downloads/kaiju-cards-main/src/contexts/AnimeContext.tsx:102-104 | an entry remains iff it was present and its id differs; each kept entry occurs as often as before, and the rest keep their relative order |
| AnimeContext.Find | Downloads/kaiju-cards-main/src/contexts/AnimeContext.tsx:106-108 | nothing iff no entry has the id; otherwise a present entry with that id |
| AnimeContext.FindIsFirst | Downloads/kaiju-cards-main/src/contexts/AnimeContext.tsx:107 | `find` returns the first entry with the id |
| AnimeContext.FindUnique | Downloads/kaiju-cards-main/src/contexts/AnimeContext.tsx:106-108 | with unique ids, looking up an entry's id returns that entry |
| AnimeContext.SeedUniqueIds | Downloads/kaiju-cards-main/src/contexts/AnimeContext.tsx:27-80 | the seed's ids are 1, 2, 3, 4 in order, hence unique |
| AnimeContext.AddKeepsUnique | Downloads/kaiju-cards-main/src/contexts/AnimeContext.tsx:85-92 | adding preserves id uniqueness |
| AnimeContext.FindAfterAdd | Downloads/kaiju-cards-main/src/contexts/AnimeContext.tsx:85-108 | after adding, the new id finds the new record |
| AnimeContext.UpdateUnknownId | Downloads/kaiju-cards-main/src/contexts/AnimeContext.tsx:94-100 | an update with an unknown id leaves the list unchanged |
| AnimeContext.UpdateNothing | Downloads/kaiju-cards-main/src/contexts/AnimeContext.tsx:94-100 | an empty update leaves the list unchanged |
| AnimeContext.UpdateKeepsUnique | Downloads/kaiju-cards-main/src/contexts/AnimeContext.tsx:94-100 | an update that does not change the id preserves id uniqueness |
| AnimeContext.FindAfterUpdate | Downloads/kaiju-cards-main/src/contexts/AnimeContext.tsx:94-108 | after updating a present id, looking it up returns the merged record |
| AnimeContext.DeleteUnknownId | Downloads/kaiju-cards-main/src/contexts/AnimeContext.tsx:102-104 | deleting an unknown id leaves the list unchanged |
| AnimeContext.DeleteKeepsUnique | Downloads/kaiju-cards-main/src/contexts/AnimeContext.tsx:102-104 | deleting preserves id uniqueness |
| AnimeContext.FindAfterDelete | Downloads/kaiju-cards-main/src/contexts/AnimeContext.tsx:102-108 | after deleting an id, looking it up finds nothing |
| AnimeContext.DeleteMaxThenAdd | Downloads/kaiju-cards-main/src/contexts/AnimeContext.tsx:86-103 | after deleting the max id, the next id is at most the deleted one, and equal to it when max-1 is present or the max is 1 |
| AnimeContext.IdsOneToFourReuse | Downloads/kaiju-cards-main/src/contexts/AnimeContext.tsx:86-103 | with ids 1..4, the next id is 5, and deleting 4 then adding reuses id 4 |
| AnimeContext.SeedDeleteFourThenAdd | Downloads/kaiju-cards-main/src/contexts/AnimeContext.tsx:27-103 | on the seed, deleting id 4 and adding gives the new record id 4 |
| AnimeContext.AnimeStore.constructor | Downloads/kaiju-cards-main/src/contexts/AnimeContext.tsx:83 | the store starts with the seed, whose ids are unique |
| AnimeContext.AnimeStore.AddAnime | Downloads/kaiju-cards-main/src/contexts/AnimeContext.tsx:85-92 | the list becomes `Added(old list)`; uniqueness is kept |
| AnimeContext.AnimeStore.UpdateAnime | Downloads/kaiju-cards-main/src/contexts/AnimeContext.tsx:94-100 | the list becomes `Updated(old list)`; uniqueness is kept when the id is not changed |
| AnimeContext.AnimeStore.DeleteAnime | Downloads/kaiju-cards-main/src/contexts/AnimeContext.tsx:102-104 | the list becomes `Deleted(old list)`; uniqueness is kept |
| AnimeContext.AnimeStore.GetAnimeById | Downloads/kaiju-cards-main/src/contexts/AnimeContext.tsx:106-108 | nothing iff no entry has the id; otherwise the first entry with that id |
| AnimeFormPage.EmptyForm | Downloads/kaiju-cards-main/src/pages/AnimeForm.tsx:48-59 | a new form has empty title, image and genres and status "Upcoming" |
| AnimeFormPage.AddGenre | Downloads/kaiju-cards-main/src/pages/AnimeForm.tsx:95-101 | a non-empty genre not yet selected is appended; otherwise the list is unchanged |
| AnimeFormPage.RemoveGenre | Downloads/kaiju-cards-main/src/pages/AnimeForm.tsx:105-110 | a genre remains iff it was selected and differs from the removed one, as often as before; order is kept |
| AnimeFormPage.AddKeepsNoDup | Downloads/kaiju-cards-main/src/pages/AnimeForm.tsx:95-101 | adding never creates a duplicate |
| AnimeFormPage.RemoveKeepsNoDup | Downloads/kaiju-cards-main/src/pages/AnimeForm.tsx:105-110 | removing never creates a duplicate |
| AnimeFormPage.AddThenRemove | Downloads/kaiju-cards-main/src/pages/AnimeForm.tsx:95-110 | adding an unselected genre and removing it restores the list |
| AnimeFormPage.EditsKeepNoDup | Downloads/kaiju-cards-main/src/pages/AnimeForm.tsx:95-110 | any sequence of adds and removes keeps the selection duplicate-free |
| AnimeFormPage.OfferedGenres | Downloads/kaiju-cards-main/src/pages/AnimeForm.tsx:329-330 | a button is offered iff its genre is available and not selected, in `availableGenres` order |
| AnimeFormPage.AvailableNotBlank | Downloads/kaiju-cards-main/src/pages/AnimeForm.tsx:34-38 | no available genre is the empty string |
| AnimeFormPage.OfferedClickSelects | Downloads/kaiju-cards-main/src/pages/AnimeForm.tsx:329-337 | clicking an offered genre appends it and removes it from the offered buttons |
| AnimeFormPage.ApplyInput | Downloads/kaiju-cards-main/src/pages/AnimeForm.tsx:88-93 | a field edit never touches the selected genres |
| AnimeFormPage.BuildRecord | Downloads/kaiju-cards-main/src/pages/AnimeForm.tsx:151-162 | the image is never empty (placeholder when the form has none) and the description and genres are copied |
| AnimeFormPage.Submit | Downloads/kaiju-cards-main/src/pages/AnimeForm.tsx:128-162 | a blank title is rejected first, then empty genres; saved iff neither, with the built record |
| AnimeFormPage.AfterSubmit | Downloads/kaiju-cards-main/src/pages/AnimeForm.tsx:131-168 | a rejection leaves the store unchanged; editing updates the route id; otherwise the record is added |
| AnimeFormPage.SubmitKeepsUnique | Downloads/kaiju-cards-main/src/pages/AnimeForm.tsx:164-168 | submitting never breaks id uniqueness |
| AnimeFormPage.EditSaves | Downloads/kaiju-cards-main/src/pages/AnimeForm.tsx:164-165 | after a successful edit, the edited id finds exactly the built record |
| AnimeFormPage.AddSaves | Downloads/kaiju-cards-main/src/pages/AnimeForm.tsx:166-167 | after a successful add, the new id finds the built record |
| AnimeFormPage.LoadThenSave | Downloads/kaiju-cards-main/src/pages/AnimeForm.tsx:62-162 | loading a complete record and saving it unchanged reproduces the record's fields |
| AnimeFormPage.LoadThenSaveFillsDefaults | Downloads/kaiju-cards-main/src/pages/AnimeForm.tsx:69-161 | a loaded record without description or image is saved with "" and the placeholder |
| AnimeFormPage.AnimeForm.constructor | Downloads/kaiju-cards-main/src/pages/AnimeForm.tsx:48-85 | the form starts empty for the given year and the custom-genre input is "" |
| AnimeFormPage.AnimeForm.LoadForEditing | Downloads/kaiju-cards-main/src/pages/AnimeForm.tsx:62-83 | a found record is copied into the form; an unknown id leaves the form alone |
| AnimeFormPage.AnimeForm.HandleInputChange | Downloads/kaiju-cards-main/src/pages/AnimeForm.tsx:88-93 | exactly the edited field changes |
| AnimeFormPage.AnimeForm.SetNewGenre | Downloads/kaiju-cards-main/src/pages/AnimeForm.tsx:349-350 | the custom-genre input takes the typed value; the form is unchanged |
| AnimeFormPage.AnimeForm.HandleGenreAdd | Downloads/kaiju-cards-main/src/pages/AnimeForm.tsx:95-103 | genres become `AddGenre(old)`, the custom input is reset to "", no duplicate appears |
| AnimeFormPage.AnimeForm.HandleGenreRemove | Downloads/kaiju-cards-main/src/pages/AnimeForm.tsx:105-110 | genres become `RemoveGenre(old)`, no duplicate appears |
| AnimeFormPage.AnimeForm.HandleSubmit | Downloads/kaiju-cards-main/src/pages/AnimeForm.tsx:128-168 | the outcome is `Submit(form)` and the store becomes `AfterSubmit(old store)` |
| AnimeListPage.FilteredAnime | Downloads/kaiju-cards-main/src/pages/AnimeList.tsx:35-40 | an entry is shown iff its title matches case-insensitively or its Japanese title exactly, and the genre is unset or listed; each shown entry as often as in the list; order kept |
| AnimeListPage.GenreTags | Downloads/kaiju-cards-main/src/pages/AnimeList.tsx:42 | a tag occurs iff some record lists it |
| AnimeListPage.AllGenres | Downloads/kaiju-cards-main/src/pages/AnimeList.tsx:42 | no duplicates; a genre is offered iff some record lists it; order of first occurrence |
| AnimeListPage.ClearSearch | Downloads/kaiju-cards-main/src/pages/AnimeList.tsx:208 | the clear button empties both inputs |
| AnimeListPage.EmptyFiltersShowAll | Downloads/kaiju-cards-main/src/pages/AnimeList.tsx:35-40 | an empty term and no genre show the whole list in order |
| AnimeListPage.ClearShowsAll | Downloads/kaiju-cards-main/src/pages/AnimeList.tsx:31-40 | after clearing, and on opening, every record is shown |
| AnimeListPage.DropdownGenreShowsSomething | Downloads/kaiju-cards-main/src/pages/AnimeList.tsx:35-42 | any genre the dropdown offers selects at least one record |
| Dashboard.PopularAnime | Downloads/kaiju-cards-main/src/pages/Dashboard.tsx:40-42 | min(3, n) records drawn from the list, ratings non-increasing |
| Dashboard.TiesKeepListOrder | Downloads/kaiju-cards-main/src/pages/Dashboard.tsx:40-42 | among equally rated records, those in the top three are the first of them in list order |
| Dashboard.BestFirst | Downloads/kaiju-cards-main/src/pages/Dashboard.tsx:41 | sorting by the comparator leaves ratings non-increasing |
| Dashboard.LeftOutRatedLower | Downloads/kaiju-cards-main/src/pages/Dashboard.tsx:40-42 | a record left out is rated no higher than any record in the top three |
| Dashboard.ComputeStats | Downloads/kaiju-cards-main/src/pages/Dashboard.tsx:26-29 | total is the list length; average is 0 for an empty list and the sum divided by the count otherwise |
| Dashboard.RatingSumAtLeast | Downloads/kaiju-cards-main/src/pages/Dashboard.tsx:28 | the rating sum is at least n times a lower bound |
| Dashboard.RatingSumAtMost | Downloads/kaiju-cards-main/src/pages/Dashboard.tsx:28 | the rating sum is at most n times an upper bound |
| Dashboard.AverageWithinRange | Downloads/kaiju-cards-main/src/pages/Dashboard.tsx:27-29 | the average lies between the lowest and highest rating |
| Dashboard.FourRatedSorted | Downloads/kaiju-cards-main/src/pages/Dashboard.tsx:40-41 | four records rated 9.0, 8.7, 8.4, 8.9 sort to order 1st, 4th, 2nd, 3rd |
| Dashboard.FourRatedTopThree | Downloads/kaiju-cards-main/src/pages/Dashboard.tsx:40-42 | those four give the top three 1st, 4th, 2nd |
| Dashboard.SeedTopThree | Downloads/kaiju-cards-main/src/pages/Dashboard.tsx:40-42 | on the seed the top three are ids 1, 4, 2 |
| MockData.SeedIds | Downloads/anime-lens-hub-main/src/data/mockData.ts:7-138 | ten entries with pairwise distinct ids |
| MockData.SeedPopularity | Downloads/anime-lens-hub-main/src/data/mockData.ts:17-134 | the i-th entry has popularity i |
| MockData.SeedDates | Downloads/anime-lens-hub-main/src/data/mockData.ts:18-136 | every entry has a date and a day; the dates are distinct days 13..22 |
| MockData.GenresListShape | Downloads/anime-lens-hub-main/src/data/mockData.ts:140-153 | `genresList` starts with 'All' and has no duplicates |
| SearchBar.SomeGenreContains | Downloads/anime-lens-hub-main/src/components/ui/search-bar.tsx:23 | true iff some lower-cased genre contains the query |
| SearchBar.Matches | Downloads/anime-lens-hub-main/src/components/ui/search-bar.tsx:21-24 | an entry matches iff its lower-cased title or a genre contains the lower-cased query; matching entries keep their number of occurrences and their order |
| SearchBar.Suggestions | Downloads/anime-lens-hub-main/src/components/ui/search-bar.tsx:19-31 | empty query gives none; otherwise the first min(5, matches) matching entries, in catalog order |
| SearchBar.DescriptionIgnored | Downloads/anime-lens-hub-main/src/components/ui/search-bar.tsx:21-24 | the description plays no part in matching |
| SearchBar.MystSuggestsOnlyMysticChronicles | Downloads/anime-lens-hub-main/src/components/ui/search-bar.tsx:21-25 | on the seed, "myst" suggests only Mystic Chronicles |
| SearchBar.QueryEffect | Downloads/anime-lens-hub-main/src/components/ui/search-bar.tsx:19-31 | the effect sets the results to the suggestions and opens iff the query is non-empty |
| SearchBar.SearchBarState.constructor | Downloads/anime-lens-hub-main/src/components/ui/search-bar.tsx:14-16 | empty query, no results, closed |
| SearchBar.SearchBarState.QueryChanged | Downloads/anime-lens-hub-main/src/components/ui/search-bar.tsx:19-31 | the results are the suggestions for the new query; open iff it is non-empty |
| SearchBar.SearchBarState.AnimeClick | Downloads/anime-lens-hub-main/src/components/ui/search-bar.tsx:44-48 | the query becomes the chosen title, the dropdown closes, the entry is passed on |
| SearchBar.SearchBarState.ClearSearch | Downloads/anime-lens-hub-main/src/components/ui/search-bar.tsx:50-53 | the query becomes "" and the dropdown closes |
| SearchPage.QueryStage | src/pages/SearchPage.tsx:23-29 | an entry passes iff the query is empty or title, description or a genre contains it case-insensitively; passing entries keep their number of occurrences and order |
| SearchPage.FilteredAnimes | src/pages/SearchPage.tsx:19-37 | an entry is shown iff it passes the query stage and the exact genre test (skipped for none or 'All'); each shown entry as often as in the catalog; order kept |
| SearchPage.HandleSearchSelect | src/pages/SearchPage.tsx:39-41 | the query becomes the chosen title; nothing else changes |
| SearchPage.SelectGenre | src/pages/SearchPage.tsx:77 | the genre filter takes the value; nothing else changes |
| SearchPage.ClearFilters | src/pages/SearchPage.tsx:91 | the filters become `{}`, so the genre test is off |
| SearchPage.ToggleFilters | src/pages/SearchPage.tsx:59 | the panel flag flips; nothing else changes |
| SearchPage.NoFiltersShowsAll | src/pages/SearchPage.tsx:19-37 | no query and no active genre show the whole catalog in order |
| SearchPage.ClearFiltersOnlyQueryDecides | src/pages/SearchPage.tsx:19-37 | after Clear Filters only the query decides |
| SearchPage.SelectAllIsClear | src/pages/SearchPage.tsx:32-34 | choosing 'All' shows what Clear Filters shows |
| SearchPage.TitleSelectsItself | src/pages/SearchPage.tsx:25 | an entry's own title matches it |
| SearchPage.SelectedIsShown | src/pages/SearchPage.tsx:24-41 | after selecting an entry from the bar with no genre filter, it is shown |
| SearchPage.SuggestionIsQueryMatch | src/pages/SearchPage.tsx:24-28 | every type-ahead match also passes the page's query test |
| SearchPage.SuggestionsAreShown | src/pages/SearchPage.tsx:19-37 | with no genre filter every suggestion for the query is on the page |
| PopularPage.Ranking | src/pages/PopularPage.tsx:13-15 | exactly the entries with rank set, non-zero and at most 10, a permutation of the filtered subset, in ascending rank |
| PopularPage.RankingTiesKeepCatalogOrder | src/pages/PopularPage.tsx:13-15 | entries with the same rank appear in catalog order |
| PopularPage.RanksAscend | src/pages/PopularPage.tsx:15 | neighbouring ranked entries have set, non-decreasing popularity |
| PopularPage.Podium | src/pages/PopularPage.tsx:50-108 | the podium holds the first (at most) three ranked entries |
| PopularPage.Grid | src/pages/PopularPage.tsx:129 | the grid holds the entries from index 3 on |
| PopularPage.PodiumThenGrid | src/pages/PopularPage.tsx:50-129 | podium and grid together show each ranked entry exactly once, in order |
| PopularPage.RanksOneToN | src/pages/PopularPage.tsx:13-15 | a catalog whose i-th entry has rank i+1, up to 10, is its own ranking |
| PopularPage.SeedRanking | src/pages/PopularPage.tsx:13-15 | on the seed the ranking is the whole catalog, ids 1..10 |
| UpdatesPage.FilteredAnimes | Downloads/anime-lens-hub-main/src/pages/UpdatesPage.tsx:29-32 | the kept entries (dated for 'All', tagged with the day otherwise), permuted, newest first |
| UpdatesPage.FeedTiesKeepCatalogOrder | Downloads/anime-lens-hub-main/src/pages/UpdatesPage.tsx:29-32 | entries with the same date appear in catalog order |
| UpdatesPage.NewestFirst | Downloads/anime-lens-hub-main/src/pages/UpdatesPage.tsx:32 | sorting by the comparator leaves dates non-increasing |
| UpdatesPage.AnimesByDay | Downloads/anime-lens-hub-main/src/pages/UpdatesPage.tsx:34-36 | an entry is counted iff tagged with the day, as often as it occurs; order kept |
| UpdatesPage.DayFeedMatchesCount | Downloads/anime-lens-hub-main/src/pages/UpdatesPage.tsx:29-78 | the feed for a day has as many entries as that day's button count |
| UpdatesPage.CountTagged | Downloads/anime-lens-hub-main/src/pages/UpdatesPage.tsx:34-36 | at most the catalog size carry a day tag |
| UpdatesPage.ByDayCount | Downloads/anime-lens-hub-main/src/pages/UpdatesPage.tsx:34-36 | a day's count equals the recursive tally of its tagged entries |
| UpdatesPage.DayCountStep | Downloads/anime-lens-hub-main/src/pages/UpdatesPage.tsx:34-36 | the count splits into the head and the rest |
| UpdatesPage.DayCountsPartition | Downloads/anime-lens-hub-main/src/pages/UpdatesPage.tsx:34-36 | each tagged entry counts under exactly one of the seven days |
| UpdatesPage.DayCountsAddUp | Downloads/anime-lens-hub-main/src/pages/UpdatesPage.tsx:34-78 | the seven button counts add up to the tagged entries, at most the catalog |
| UpdatesPage.SeedOrderSorted | Downloads/anime-lens-hub-main/src/pages/UpdatesPage.tsx:32 | the seed order 6,3,1,2,4,5,7,8,9,10 is newest first |
| UpdatesPage.SeedOrderPermutes | Downloads/anime-lens-hub-main/src/pages/UpdatesPage.tsx:29-30 | that order holds each seed entry once |
| UpdatesPage.SeedDatesDistinct | Downloads/anime-lens-hub-main/src/data/mockData.ts:18-135 | no two seed entries share a date |
| UpdatesPage.FeedIsOrder | Downloads/anime-lens-hub-main/src/pages/UpdatesPage.tsx:29-32 | with all entries dated on distinct days, the 'All' feed is the one newest-first arrangement |
| UpdatesPage.SeedAllFeed | Downloads/anime-lens-hub-main/src/pages/UpdatesPage.tsx:16-32 | on the seed, 'All' shows ids 6,3,1,2,4,5,7,8,9,10 |
| Home.PopularAnimes | src/pages/Home.tsx:14-16 | exactly the entries with rank set, non-zero and at most 6, a permutation, ascending rank |
| Home.CarouselTiesKeepCatalogOrder | src/pages/Home.tsx:14-16 | carousel entries with the same rank appear in catalog order |
| Home.RecentUpdates | src/pages/Home.tsx:18-21 | min(6, number of dated entries) dated catalog entries, newest first |
| Home.CarouselIsRankingPrefix | src/pages/Home.tsx:14-16 | the carousel is a prefix of the Popular page ranking |
| Home.LeftOutIsOlder | src/pages/Home.tsx:18-21 | a dated entry left out is no newer than any entry shown |
| Home.RecentIsFeedFront | src/pages/Home.tsx:18-21 | the recent updates are the first 6 of the Updates page's 'All' feed |
| IndexNav.TabView | src/pages/Index.tsx:44 | a tab's view is never Updates or Detail |
| IndexNav.AnimeSelect | src/pages/Index.tsx:18-21 | detail view with the entry, tab unchanged |
| IndexNav.ShowPopular | src/pages/Index.tsx:23-26 | tab and view both Popular, selection unchanged |
| IndexNav.ShowUpdates | src/pages/Index.tsx:29-31 | view Updates, tab and selection unchanged |
| IndexNav.Back | src/pages/Index.tsx:33-40 | from detail to the tab's view; from updates to Home tab and view; otherwise nothing |
| IndexNav.TabChange | src/pages/Index.tsx:42-45 | tab and view both set to the tab |
| IndexNav.InitialValid | src/pages/Index.tsx:14-16 | the initial state (Home, Home, nothing) satisfies both invariants |
| IndexNav.StepKeepsInvariant | src/pages/Index.tsx:18-45 | every handler keeps "tab view equals active tab, detail has a selection" |
| IndexNav.RunKeepsInvariant | src/pages/Index.tsx:14-45 | any sequence of handler calls keeps that invariant |
| IndexNav.OfferedStepKeepsReachable | src/pages/Index.tsx:47-76 | a handler the screen offers also keeps "Updates implies the Home tab" |
| IndexNav.OfferedRunKeepsReachable | src/pages/Index.tsx:47-76 | any sequence of offered handler calls keeps the stronger invariant |
| IndexNav.TabBarExactlyOnTabView | src/pages/Index.tsx:75 | the tab bar shows iff the view is the active tab's view |
| IndexNav.SelectThenBack | src/pages/Index.tsx:18-35 | opening an entry from a tab view and going back returns to that view |
| IndexNav.BackFromUpdatesGoesHome | src/pages/Index.tsx:33-39 | back from Updates, or from an entry opened there, lands on Home |
| IndexNav.Navigator.constructor | src/pages/Index.tsx:14-16 | starts in the initial state, satisfying the invariant |
| IndexNav.Navigator.HandleAnimeSelect | src/pages/Index.tsx:18-21 | the state becomes `AnimeSelect(old)`, invariant kept |
| IndexNav.Navigator.HandleShowPopular | src/pages/Index.tsx:23-26 | the state becomes `ShowPopular(old)`, invariant kept |
| IndexNav.Navigator.HandleShowUpdates | src/pages/Index.tsx:29-31 | the state becomes `ShowUpdates(old)`, invariant kept |
| IndexNav.Navigator.HandleBack | src/pages/Index.tsx:33-40 | the state becomes `Back(old)`, invariant kept |
| IndexNav.Navigator.HandleTabChange | src/pages/Index.tsx:42-45 | the state becomes `TabChange(old)`, invariant kept |
| IndexNav.Navigator.ShowsTabBar | src/pages/Index.tsx:75 | the bar is rendered iff the view is the active tab's view |
| Seqs.Filter | Downloads/kaiju-cards-main/src/contexts/AnimeContext.tsx:103 | `filter` keeps exactly the elements satisfying the test, each as often as it occurs, in order |
| Seqs.SortBy | src/pages/PopularPage.tsx:15 | the stable sort yields a sorted permutation of its input |
| Seqs.SortByStable | src/pages/PopularPage.tsx:15 | the sort is stable: elements with equal keys come out in input order |
| Seqs.FilterOfTake | src/pages/Home.tsx:21 | what `slice(0, n)` keeps of a class of elements is the front of that class |
| Seqs.SortFilterCommute | src/pages/PopularPage.tsx:13-15 | sorting the filtered list equals filtering the sorted list |
| Seqs.SortedUnique | Downloads/kaiju-cards-main/src/pages/Dashboard.tsx:41 | with distinct keys, the sorted permutation is unique |
| Seqs.Take | src/pages/Home.tsx:21 | `slice(0, n)` is the prefix of length min(n, length) |
| Seqs.TakeSortedBound | Downloads/kaiju-cards-main/src/pages/Dashboard.tsx:40-42 | in a sorted list, an element cut by `slice` has a key no smaller than any kept one |
| Seqs.Distinct | Downloads/kaiju-cards-main/src/pages/AnimeList.tsx:42 | `new Set` keeps each element once, in order of first occurrence |
| Text.Lower | Downloads/kaiju-cards-main/src/pages/AnimeList.tsx:36 | `toLowerCase` maps each ASCII capital to lower case and keeps the length |
| Text.Contains | Downloads/kaiju-cards-main/src/pages/AnimeList.tsx:36-37 | `includes` holds iff the needle occurs at some position |

## Left out

- JSX rendering and the presentational components (`AnimeDetail`, `tab-navigation`, `anime-card`, `anime-carousel`, `Layout`, `App` routing): they only display.
- The FileReader image upload in the form: browser I/O. The model takes the image as a field value.
- `confirm()` before deleting on the list page: a browser dialog. The delete is modelled as unconditional.
- Toasts and `navigate` after submit: UI side effects with no effect on the data.
- The click-outside listener of the search bar: a DOM event. `ClearSearch` and `AnimeClick` are the only modelled ways to close the dropdown.
- Whether the search bar's query effect runs again after `handleAnimeClick` changes the query: React scheduling. `QueryChanged` is the effect, and it runs only when the caller invokes it.
- `useAnime` throwing outside a provider, and the provider plumbing: context wiring.
- The mock stats (`totalViews`, `newThisMonth`), the static activity feed, `formatsList` and both `vite.config.ts` files: constants and build configuration with no logic.
- `Dashboard.ComputeStats`: the average is an exact real. Floating-point rounding and `toFixed(1)` are not modelled.
- `AnimeContext.Updated`: an update written as `Partial<Anime>` is a record of options. A field explicitly set to `undefined`, which would overwrite the stored field, is not modelled.
- `AnimeContext.MergeAsUpdate`: stated only for records with a description. The form always sends one.
- `AnimeContext.DeleteMaxThenAdd`: the id is reused exactly only when id max-1 is present, or the max is 1. Otherwise the next id is smaller, which the code allows.
- `AnimeFormPage.AnimeForm.LoadForEditing`: the route id is taken as an already parsed integer. `parseInt` and its failure are not modelled.
- `AnimeFormPage.EmptyForm`: `new Date().getFullYear()` is a clock read, passed in as a parameter.
- `Text.Lower`: lower-cases ASCII letters only. Unicode case mapping is not modelled.
- `Text.IsBlank`: `trim()` is modelled as "every character is a space, tab, line feed, carriage return, vertical tab or form feed". Other Unicode white space is not.
- `UpdatesPage.FilteredAnimes`: requires every kept entry to have a date. For a day selection, an undated entry makes the JavaScript comparator return NaN, and that order is not modelled.
- `LensTypes.RecencyKey`: dates are day numbers of January 2024, not parsed `Date` values.
