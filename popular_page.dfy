/**
 * The popularity ranking page (`src/pages/PopularPage.tsx`): the ranked
 * entries, split into the three-place podium and the grid below it.
 */
module PopularPage {
  import opened Wrappers
  import opened LensTypes
  import opened Seqs
  import MockData

  /**
   * `anime.popularity && anime.popularity <= 10`: the rank is set, is not the
   * falsy 0, and is at most 10. A negative rank is truthy and passes.
   */
  predicate InRanking(a: Anime) {
    a.popularity.Some? && a.popularity.value != 0 && a.popularity.value <= 10
  }

  /**
   * `popularAnimes`: the ranked entries, lowest rank first. The sort runs on
   * the array `filter` returned, so the catalog itself keeps its order.
   */
  function Ranking(catalog: seq<Anime>): (r: seq<Anime>)
    ensures forall a :: a in r <==> a in catalog && InRanking(a)
    ensures multiset(r) == multiset(Filter(catalog, InRanking))
    ensures SortedBy(r, PopularityKey)
  {
    var kept := Filter(catalog, InRanking);
    var r := SortBy(kept, PopularityKey);
    assert forall a :: a in r <==> a in multiset(r);
    assert forall a :: a in kept <==> a in multiset(kept);
    r
  }

  /** Entries that share a rank appear in catalog order. */
  lemma RankingTiesKeepCatalogOrder(catalog: seq<Anime>, k: real)
    ensures Filter(Ranking(catalog), HasKey(PopularityKey, k)) == Filter(Filter(catalog, InRanking), HasKey(PopularityKey, k))
  {
    SortByStable(Filter(catalog, InRanking), PopularityKey, k);
  }

  /** Consecutive ranked entries have non-decreasing ranks, all of them set. */
  lemma RanksAscend(catalog: seq<Anime>, i: nat)
    requires i + 1 < |Ranking(catalog)|
    ensures Ranking(catalog)[i].popularity.Some? && Ranking(catalog)[i + 1].popularity.Some?
    ensures Ranking(catalog)[i].popularity.value <= Ranking(catalog)[i + 1].popularity.value
  {
    var r := Ranking(catalog);
    assert r[i] in r && r[i + 1] in r;
    assert PopularityKey(r[i]) <= PopularityKey(r[i + 1]);
  }

  /** `popularAnimes[0]`, `[1]` and `[2]`: the podium, as far as there are ranked entries. */
  function Podium(r: seq<Anime>): (p: seq<Anime>)
    ensures |p| <= 3
    ensures p == Take(r, 3)
  {
    Take(r, 3)
  }

  /** `popularAnimes.slice(3)`: everything after the podium, empty when there is nothing after it. */
  function Grid(r: seq<Anime>): (g: seq<Anime>)
    ensures |g| == if |r| <= 3 then 0 else |r| - 3
    ensures forall i :: 0 <= i < |g| ==> g[i] == r[i + 3]
  {
    if |r| <= 3 then [] else r[3..]
  }

  /** The podium and the grid together show every ranked entry once, in ranking order. */
  lemma PodiumThenGrid(r: seq<Anime>)
    ensures Podium(r) + Grid(r) == r
    ensures multiset(Podium(r)) + multiset(Grid(r)) == multiset(r)
  {
    if |r| > 3 {
      assert r == r[..3] + r[3..];
    }
  }

  /** On the seed catalog every entry is ranked, and the ranking is the catalog order: ids 1 to 10. */
  lemma SeedRanking()
    ensures Ranking(MockData.MockAnimeData) == MockData.MockAnimeData
  {
    MockData.SeedPopularity();
    MockData.SeedIds();
    RanksOneToN(MockData.MockAnimeData);
  }

  /** A catalog whose i-th entry has rank i + 1, up to 10, is its own ranking. */
  lemma RanksOneToN(c: seq<Anime>)
    requires |c| <= 10
    requires forall i :: 0 <= i < |c| ==> c[i].popularity == Some(i + 1)
    ensures Ranking(c) == c
  {
    FilterAll(c, InRanking);
    assert SortedBy(c, PopularityKey);
    SortSorted(c, PopularityKey);
  }
}
