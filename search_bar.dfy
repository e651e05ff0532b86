/**
 * The typeahead search bar (`components/ui/search-bar.tsx`): the suggestion
 * query over the seed catalog, and the component's three state fields.
 */
module SearchBar {
  import opened Wrappers
  import opened LensTypes
  import opened Text
  import opened Seqs
  import MockData

  /** The dropdown never lists more than this many suggestions (`slice(0, 5)`). */
  const MaxSuggestions: nat := 5

  /** `genres.some(g => g.toLowerCase().includes(q))`, looking at `genres[from..]`. */
  function SomeGenreContains(genres: seq<string>, q: string, from: nat := 0): (r: bool)
    requires from <= |genres|
    ensures r <==> exists i :: from <= i < |genres| && Contains(Lower(genres[i]), q)
    decreases |genres| - from
  {
    from < |genres| && (Contains(Lower(genres[from]), q) || SomeGenreContains(genres, q, from + 1))
  }

  /** An entry is suggested when its title or one of its genres contains the query, ignoring case. */
  predicate SuggestionMatch(a: Anime, query: string) {
    Contains(Lower(a.title), Lower(query)) || SomeGenreContains(a.genres, Lower(query))
  }

  /** Every entry of `catalog` that matches, in catalog order. */
  function Matches(catalog: seq<Anime>, query: string): (r: seq<Anime>)
    ensures forall a :: a in r <==> a in catalog && SuggestionMatch(a, query)
    ensures forall a :: multiset(r)[a] == if SuggestionMatch(a, query) then multiset(catalog)[a] else 0
    ensures IsSubseq(r, catalog)
  {
    Filter(catalog, a => SuggestionMatch(a, query))
  }

  /**
   * The `results` the effect on `query` computes: nothing for an empty
   * query, otherwise the first five matches in catalog order.
   */
  function Suggestions(catalog: seq<Anime>, query: string): (r: seq<Anime>)
    ensures query == "" ==> r == []
    ensures |r| <= MaxSuggestions
    ensures forall a :: a in r ==> a in catalog && SuggestionMatch(a, query)
    ensures IsSubseq(r, catalog)
    ensures query != "" ==> |r| == if |Matches(catalog, query)| < MaxSuggestions then |Matches(catalog, query)| else MaxSuggestions
    ensures query != "" ==> r == Matches(catalog, query)[..|r|]
  {
    if |query| > 0 then
      var m := Matches(catalog, query);
      var r := Take(m, MaxSuggestions);
      SubseqTrans(r, m, catalog);
      SubseqMembers(r, m);
      r
    else []
  }

  /**
   * Whether an entry is suggested does not depend on its description: two
   * entries that differ only there are suggested for exactly the same queries.
   */
  lemma DescriptionIgnored(a: Anime, description: string, query: string)
    ensures SuggestionMatch(a.(description := description), query) <==> SuggestionMatch(a, query)
  {
  }

  // The seed scenario: "myst" suggests "Mystic Chronicles" alone. The facts
  // about each entry are proved one entry at a time, with the entry and the
  // query passed as parameters, so that no proof has to take the whole seed
  // catalog apart at once.

  /** A title that starts with "Myst" is suggested for "myst". */
  lemma MatchesMyst(a: Anime, q: string)
    requires q == "myst"
    requires |a.title| >= 4 && a.title[0] == 'M' && a.title[1] == 'y' && a.title[2] == 's' && a.title[3] == 't'
    ensures SuggestionMatch(a, q)
  {
    assert Lower(q) == q;
    PrefixContained(Lower(a.title), q);
  }

  /** An entry with "y" next to "s" nowhere in its title or genres is not suggested for "myst". */
  lemma MissesMyst(a: Anime, q: string)
    requires q == "myst"
    requires PairAbsent(a.title, 'y', 's')
    requires forall i :: 0 <= i < |a.genres| ==> PairAbsent(a.genres[i], 'y', 's')
    ensures !SuggestionMatch(a, q)
  {
    assert Lower(q) == q;
    PairAbsentNotContained(a.title, q, 1);
    forall i | 0 <= i < |a.genres|
      ensures !Contains(Lower(a.genres[i]), q)
    {
      PairAbsentNotContained(a.genres[i], q, 1);
    }
  }

  lemma Entry2MissesMyst(a: Anime, q: string) requires a == MockData.Entry2 && q == "myst" ensures !SuggestionMatch(a, q) { MissesMyst(a, q); }
  lemma Entry3MissesMyst(a: Anime, q: string) requires a == MockData.Entry3 && q == "myst" ensures !SuggestionMatch(a, q) { MissesMyst(a, q); }
  lemma Entry4MissesMyst(a: Anime, q: string) requires a == MockData.Entry4 && q == "myst" ensures !SuggestionMatch(a, q) { MissesMyst(a, q); }
  lemma Entry5MissesMyst(a: Anime, q: string) requires a == MockData.Entry5 && q == "myst" ensures !SuggestionMatch(a, q) { MissesMyst(a, q); }
  lemma Entry6MissesMyst(a: Anime, q: string) requires a == MockData.Entry6 && q == "myst" ensures !SuggestionMatch(a, q) { MissesMyst(a, q); }
  lemma Entry7MissesMyst(a: Anime, q: string) requires a == MockData.Entry7 && q == "myst" ensures !SuggestionMatch(a, q) { MissesMyst(a, q); }
  lemma Entry8MissesMyst(a: Anime, q: string) requires a == MockData.Entry8 && q == "myst" ensures !SuggestionMatch(a, q) { MissesMyst(a, q); }
  lemma Entry9MissesMyst(a: Anime, q: string) requires a == MockData.Entry9 && q == "myst" ensures !SuggestionMatch(a, q) { MissesMyst(a, q); }
  lemma Entry10MissesMyst(a: Anime, q: string) requires a == MockData.Entry10 && q == "myst" ensures !SuggestionMatch(a, q) { MissesMyst(a, q); }

  /** Every seed entry after the first misses "myst". */
  lemma SeedMissesMyst(c: seq<Anime>, q: string, k: nat)
    requires c == MockData.MockAnimeData && q == "myst" && 1 <= k < |c|
    ensures !SuggestionMatch(c[k], q)
  {
    if k == 1 { Entry2MissesMyst(c[k], q); } else
    if k == 2 { Entry3MissesMyst(c[k], q); } else
    if k == 3 { Entry4MissesMyst(c[k], q); } else
    if k == 4 { Entry5MissesMyst(c[k], q); } else
    if k == 5 { Entry6MissesMyst(c[k], q); } else
    if k == 6 { Entry7MissesMyst(c[k], q); } else
    if k == 7 { Entry8MissesMyst(c[k], q); } else
    if k == 8 { Entry9MissesMyst(c[k], q); } else { Entry10MissesMyst(c[k], q); }
  }

  /** On the seed catalog the query "myst" suggests "Mystic Chronicles" and nothing else. */
  lemma MystSuggestsOnlyMysticChronicles()
    ensures Suggestions(MockData.MockAnimeData, "myst") == [MockData.Entry1]
  {
    var c, q := MockData.MockAnimeData, "myst";
    MatchesMyst(c[0], q);
    forall k | 1 <= k < |c|
      ensures !SuggestionMatch(c[k], q)
    {
      SeedMissesMyst(c, q, k);
    }
    FilterOnlyFirst(c, a => SuggestionMatch(a, q));
  }

  /** The effect on `query`: a non-empty query lists its suggestions and opens the dropdown, "" clears and closes it. */
  method QueryEffect(catalog: seq<Anime>, query: string) returns (results: seq<Anime>, isOpen: bool)
    ensures results == Suggestions(catalog, query)
    ensures isOpen <==> query != ""
  {
    if |query| > 0 {
      var filtered := Filter(catalog, a => SuggestionMatch(a, query));
      results := Take(filtered, MaxSuggestions);
      isOpen := true;
    } else {
      results := [];
      isOpen := false;
    }
  }

  /**
   * The component's state: the text in the box, the suggestions shown, and
   * whether the dropdown is open.
   */
  class SearchBarState {
    var query: string
    var results: seq<Anime>
    var isOpen: bool

    /** An open dropdown always lists the current query's suggestions; there are never more than five. */
    ghost predicate Valid()
      reads this
    {
      |results| <= MaxSuggestions &&
      (isOpen ==> query != "" && results == Suggestions(MockData.MockAnimeData, query))
    }

    constructor ()
      ensures Valid()
      ensures query == "" && results == [] && !isOpen
    {
      query := "";
      results := [];
      isOpen := false;
    }

    /** Typing: `setQuery(q)` and then the effect that depends on `query`. */
    method QueryChanged(q: string)
      modifies this
      ensures Valid()
      ensures query == q
      ensures results == Suggestions(MockData.MockAnimeData, q)
      ensures isOpen <==> q != ""
    {
      query := q;
      results, isOpen := QueryEffect(MockData.MockAnimeData, q);
    }

    /** `handleAnimeClick`: the box shows the chosen title, the dropdown closes, the entry goes to the caller. */
    method AnimeClick(anime: Anime) returns (selected: Anime)
      requires Valid()
      modifies this
      ensures Valid()
      ensures query == anime.title && !isOpen && results == old(results)
      ensures selected == anime
    {
      query := anime.title;
      isOpen := false;
      selected := anime;
    }

    /** `clearSearch`: the box is emptied and the dropdown closes. */
    method ClearSearch()
      requires Valid()
      modifies this
      ensures Valid()
      ensures query == "" && !isOpen && results == old(results)
    {
      query := "";
      isOpen := false;
    }
  }
}
