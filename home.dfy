/**
 * The home screen (`src/pages/Home.tsx`): the Popular carousel and the
 * Recent Updates carousel, both computed from the seed catalog.
 */
module Home {
  import opened Wrappers
  import opened LensTypes
  import opened Seqs
  import PopularPage
  import UpdatesPage

  /** The carousel holds at most this many recent updates (`slice(0, 6)`). */
  const MaxRecent: nat := 6

  /** `anime.popularity && anime.popularity <= 6`. */
  predicate InCarousel(a: Anime) {
    a.popularity.Some? && a.popularity.value != 0 && a.popularity.value <= 6
  }

  /** `anime.lastUpdate`: the entry has a date. */
  predicate HasLastUpdate(a: Anime) {
    a.lastUpdate.Some?
  }

  /** The Popular carousel: the entries ranked 6 or better, lowest rank first. */
  function PopularAnimes(catalog: seq<Anime>): (r: seq<Anime>)
    ensures forall a :: a in r <==> a in catalog && InCarousel(a)
    ensures multiset(r) == multiset(Filter(catalog, InCarousel))
    ensures SortedBy(r, PopularityKey)
  {
    var kept := Filter(catalog, InCarousel);
    SortByMembers(kept, PopularityKey);
    SortBy(kept, PopularityKey)
  }

  /** Carousel entries that share a rank appear in catalog order. */
  lemma CarouselTiesKeepCatalogOrder(catalog: seq<Anime>, k: real)
    ensures Filter(PopularAnimes(catalog), HasKey(PopularityKey, k)) == Filter(Filter(catalog, InCarousel), HasKey(PopularityKey, k))
  {
    SortByStable(Filter(catalog, InCarousel), PopularityKey, k);
  }

  /** `recentUpdates`: the six most recently updated entries, newest first. */
  function RecentUpdates(catalog: seq<Anime>): (r: seq<Anime>)
    ensures |r| <= MaxRecent
    ensures |r| == if |Filter(catalog, HasLastUpdate)| < MaxRecent then |Filter(catalog, HasLastUpdate)| else MaxRecent
    ensures forall a :: a in r ==> a in catalog && a.lastUpdate.Some?
    ensures forall i, j :: 0 <= i < j < |r| ==> r[i].lastUpdate.value >= r[j].lastUpdate.value
  {
    var kept := Filter(catalog, HasLastUpdate);
    var sorted := SortBy(kept, RecencyKey);
    SortByMembers(kept, RecencyKey);
    var r := Take(sorted, MaxRecent);
    SubseqMembers(r, sorted);
    SubseqSorted(r, sorted, RecencyKey);
    UpdatesPage.NewestFirst(r);
    r
  }

  /**
   * With a stable sort the Popular carousel is the front of the Popular
   * page's ranking: the same entries ranked 1 to 6, in the same order.
   */
  lemma CarouselIsRankingPrefix(catalog: seq<Anime>)
    ensures |PopularAnimes(catalog)| <= |PopularPage.Ranking(catalog)|
    ensures PopularAnimes(catalog) == PopularPage.Ranking(catalog)[..|PopularAnimes(catalog)|]
  {
    var ranked := Filter(catalog, PopularPage.InRanking);
    FilterNarrowing(catalog, InCarousel, PopularPage.InRanking);
    SortFilterCommute(ranked, PopularityKey, InCarousel);
    var ranking := PopularPage.Ranking(catalog);
    forall y | y in ranking
      ensures InCarousel(y) <==> PopularityKey(y) <= 6.0
    {
    }
    SortedFilterPrefix(ranking, PopularityKey, InCarousel, 6.0);
  }

  /** A dated entry left out of the carousel is no newer than any entry in it. */
  lemma LeftOutIsOlder(catalog: seq<Anime>, y: Anime, z: Anime)
    requires y in catalog && y.lastUpdate.Some?
    requires y !in RecentUpdates(catalog) && z in RecentUpdates(catalog)
    ensures y.lastUpdate.value <= z.lastUpdate.value
  {
    var kept := Filter(catalog, HasLastUpdate);
    var sorted := SortBy(kept, RecencyKey);
    SortByMembers(kept, RecencyKey);
    TakeSortedBound(sorted, RecencyKey, MaxRecent, y, z);
  }

  /**
   * The predicate and the comparator are those of the update feed's 'All'
   * view, so the carousel is that feed's first six entries.
   */
  lemma RecentIsFeedFront(catalog: seq<Anime>)
    ensures RecentUpdates(catalog) == Take(UpdatesPage.FilteredAnimes(catalog, UpdatesPage.All), MaxRecent)
  {
    FilterCongruent(catalog, HasLastUpdate, a => UpdatesPage.Keeps(UpdatesPage.All, a));
  }
}
