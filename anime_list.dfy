/**
 * The admin app's list page (`pages/AnimeList.tsx`): the search-and-genre
 * filter, the genre dropdown built from the records, and the clear button.
 */
module AnimeListPage {
  import opened Seqs
  import opened Text
  import opened AnimeContext

  /** The search test: the title contains the term ignoring case, or the Japanese title contains it exactly. */
  predicate MatchesSearch(a: Anime, searchTerm: string) {
    Contains(Lower(a.title), Lower(searchTerm)) || Contains(a.titleJapanese, searchTerm)
  }

  /** `!selectedGenre || anime.genre.includes(selectedGenre)`: "" stands for every genre. */
  predicate MatchesGenre(a: Anime, selectedGenre: string) {
    selectedGenre == "" || selectedGenre in a.genre
  }

  /**
   * `filteredAnime`: an entry is shown exactly when it passes both tests,
   * and the list order is kept, so at most the whole list is shown.
   */
  function FilteredAnime(list: seq<Anime>, searchTerm: string, selectedGenre: string): (r: seq<Anime>)
    ensures forall a :: a in r <==> a in list && MatchesSearch(a, searchTerm) && MatchesGenre(a, selectedGenre)
    ensures forall a :: multiset(r)[a] == if MatchesSearch(a, searchTerm) && MatchesGenre(a, selectedGenre) then multiset(list)[a] else 0
    ensures IsSubseq(r, list)
    ensures |r| <= |list|
  {
    Filter(list, (a: Anime) => MatchesSearch(a, searchTerm) && MatchesGenre(a, selectedGenre))
  }

  /** `animeList.flatMap(anime => anime.genre)`: every genre tag, record by record. */
  function GenreTags(list: seq<Anime>): (r: seq<string>)
    ensures forall g :: g in r <==> exists a :: a in list && g in a.genre
    decreases |list|
  {
    if list == [] then []
    else
      var rest := GenreTags(list[1..]);
      assert forall a :: a in list <==> a == list[0] || a in list[1..];
      list[0].genre + rest
  }

  /**
   * `allGenres`: each genre some record lists, once, in order of first
   * occurrence among the tags.
   */
  function AllGenres(list: seq<Anime>): (r: seq<string>)
    ensures NoDup(r)
    ensures forall g :: g in r <==> g in GenreTags(list)
    ensures forall g :: g in r <==> exists a :: a in list && g in a.genre
    ensures forall i, j :: 0 <= i < j < |r| ==> FirstIndex(GenreTags(list), r[i]) < FirstIndex(GenreTags(list), r[j])
  {
    Distinct(GenreTags(list))
  }

  /** The two filter inputs. */
  datatype ListState = ListState(searchTerm: string, selectedGenre: string)

  /** The page opens with both inputs empty. */
  const Initial: ListState := ListState("", "")

  /** The clear button resets both inputs. */
  function ClearSearch(s: ListState): (t: ListState)
    ensures t.searchTerm == "" && t.selectedGenre == ""
  {
    ListState("", "")
  }

  /** What the grid shows for a state. */
  function Shown(list: seq<Anime>, s: ListState): seq<Anime> {
    FilteredAnime(list, s.searchTerm, s.selectedGenre)
  }

  /** With an empty term and no genre every record is shown, in order. */
  lemma {:induction false} EmptyFiltersShowAll(list: seq<Anime>)
    ensures FilteredAnime(list, "", "") == list
  {
    forall a | a in list ensures MatchesSearch(a, "") {
      ContainsSelfAndEmpty(Lower(a.title));
    }
    FilterAll(list, (a: Anime) => MatchesSearch(a, "") && MatchesGenre(a, ""));
  }

  /** After the clear button every record is shown again, whatever was typed or chosen. */
  lemma ClearShowsAll(list: seq<Anime>, s: ListState)
    ensures Shown(list, ClearSearch(s)) == list
    ensures Shown(list, Initial) == list
  {
    EmptyFiltersShowAll(list);
  }

  /** Choosing any genre the dropdown offers, with an empty term, shows at least one record. */
  lemma DropdownGenreShowsSomething(list: seq<Anime>, g: string)
    requires g in AllGenres(list)
    ensures FilteredAnime(list, "", g) != []
  {
    var a :| a in list && g in a.genre;
    ContainsSelfAndEmpty(Lower(a.title));
    assert a in FilteredAnime(list, "", g);
  }
}
