/**
 * The admin dashboard (`pages/Dashboard.tsx`): the three best-rated records
 * and the record count and average rating shown on the stat cards.
 */
module Dashboard {
  import opened Seqs
  import opened AnimeContext

  /** The comparator `(a, b) => b.rating - a.rating` sorts by this key: the best rating comes first. */
  function RatingKey(a: Anime): real {
    -a.rating
  }

  /**
   * `popularAnime`: a copy of the list sorted by rating, best first, cut
   * to three. The list itself is left in its order.
   */
  function PopularAnime(list: seq<Anime>): (r: seq<Anime>)
    ensures |r| == if |list| < 3 then |list| else 3
    ensures multiset(r) <= multiset(list)
    ensures forall a :: a in r ==> a in list
    ensures forall i, j :: 0 <= i < j < |r| ==> r[i].rating >= r[j].rating
  {
    var sorted := SortBy(list, RatingKey);
    var r := Take(sorted, 3);
    TakeMultiset(sorted, 3);
    SortByMembers(list, RatingKey);
    SubseqSorted(r, sorted, RatingKey);
    BestFirst(r);
    r
  }

  /** Records sorted by the rating key have non-increasing ratings. */
  lemma BestFirst(r: seq<Anime>)
    requires SortedBy(r, RatingKey)
    ensures forall i, j :: 0 <= i < j < |r| ==> r[i].rating >= r[j].rating
  {
    forall i, j | 0 <= i < j < |r| ensures r[i].rating >= r[j].rating {
      assert RatingKey(r[i]) <= RatingKey(r[j]);
    }
  }

  /** A record left out of the top three is rated no higher than any record in it. */
  lemma LeftOutRatedLower(list: seq<Anime>, y: Anime, z: Anime)
    requires y in list && y !in PopularAnime(list) && z in PopularAnime(list)
    ensures y.rating <= z.rating
  {
    var sorted := SortBy(list, RatingKey);
    SortByMembers(list, RatingKey);
    TakeSortedBound(sorted, RatingKey, 3, y, z);
  }

  /**
   * Among records with the same rating, the ones that make the top three are
   * the first of them in list order.
   */
  lemma TiesKeepListOrder(list: seq<Anime>, k: real)
    ensures |Filter(PopularAnime(list), HasKey(RatingKey, k))| <= |Filter(list, HasKey(RatingKey, k))|
    ensures Filter(PopularAnime(list), HasKey(RatingKey, k))
         == Filter(list, HasKey(RatingKey, k))[..|Filter(PopularAnime(list), HasKey(RatingKey, k))|]
  {
    var sorted := SortBy(list, RatingKey);
    SortByStable(list, RatingKey, k);
    FilterOfTake(sorted, 3, HasKey(RatingKey, k));
  }

  /** The sum of the ratings: `reduce((sum, anime) => sum + anime.rating, 0)`. */
  function RatingSum(list: seq<Anime>): real
    decreases |list|
  {
    if list == [] then 0.0 else list[0].rating + RatingSum(list[1..])
  }

  /** The two computed stat cards. */
  datatype Stats = Stats(totalAnime: nat, averageRating: real)

  /** `totalAnime` and `averageRating`; an empty list gives 0 rather than a division. */
  function ComputeStats(list: seq<Anime>): (s: Stats)
    ensures s.totalAnime == |list|
    ensures list == [] ==> s.averageRating == 0.0
    ensures list != [] ==> (|list| as real) * s.averageRating == RatingSum(list)
  {
    if |list| > 0 then Stats(|list|, RatingSum(list) / (|list| as real)) else Stats(0, 0.0)
  }

  /** `n * x` as repeated addition, so the bounds below need only linear steps. */
  function Times(n: nat, x: real): (r: real)
    ensures r == (n as real) * x
  {
    if n == 0 then 0.0
    else
      AddOneTimes((n - 1) as real, x);
      x + Times(n - 1, x)
  }

  /** `(m + 1) * x` is `m * x + x`. */
  lemma AddOneTimes(m: real, x: real)
    ensures (m + 1.0) * x == m * x + x
  {
  }

  /** Each rating at least `lo` makes the sum at least `n` times `lo`. */
  lemma {:induction false} RatingSumAtLeast(list: seq<Anime>, lo: real)
    requires forall a :: a in list ==> lo <= a.rating
    ensures Times(|list|, lo) <= RatingSum(list)
    decreases |list|
  {
    if list != [] {
      var rest := list[1..];
      assert list[0] in list;
      assert forall a :: a in rest ==> a in list;
      RatingSumAtLeast(rest, lo);
    }
  }

  /** Each rating at most `hi` makes the sum at most `n` times `hi`. */
  lemma {:induction false} RatingSumAtMost(list: seq<Anime>, hi: real)
    requires forall a :: a in list ==> a.rating <= hi
    ensures RatingSum(list) <= Times(|list|, hi)
    decreases |list|
  {
    if list != [] {
      var rest := list[1..];
      assert list[0] in list;
      assert forall a :: a in rest ==> a in list;
      RatingSumAtMost(rest, hi);
    }
  }

  /** The average rating lies between the lowest and the highest rating. */
  lemma AverageWithinRange(list: seq<Anime>, lo: real, hi: real)
    requires list != []
    requires forall a :: a in list ==> lo <= a.rating <= hi
    ensures lo <= ComputeStats(list).averageRating <= hi
  {
    RatingSumAtLeast(list, lo);
    RatingSumAtMost(list, hi);
    var n := |list| as real;
    var sum := RatingSum(list);
    var avg := ComputeStats(list).averageRating;
    assert n * avg == sum;
    assert n * lo <= sum <= n * hi by {
      assert Times(|list|, lo) == n * lo && Times(|list|, hi) == n * hi;
    }
    QuotientBounds(sum, n, avg, lo, hi);
  }

  /** If `n * avg` is `sum` for a positive `n`, bounds on `sum` scaled by `n` bound `avg`. */
  lemma QuotientBounds(sum: real, n: real, avg: real, lo: real, hi: real)
    requires n > 0.0 && n * avg == sum
    requires n * lo <= sum <= n * hi
    ensures lo <= avg <= hi
  {
    assert n * (avg - lo) >= 0.0;
    assert n * (hi - avg) >= 0.0;
  }

  /** The seed's rating order, best first, is sorted by the rating key with no two keys equal. */
  lemma FourRatedOrder(a: Anime, b: Anime, c: Anime, d: Anime)
    requires a.rating == 9.0 && b.rating == 8.7 && c.rating == 8.4 && d.rating == 8.9
    ensures SortedBy([a, d, b, c], RatingKey)
    ensures forall x, y :: x in [a, d, b, c] && y in [a, d, b, c] && RatingKey(x) == RatingKey(y) ==> x == y
  {
    var e := [a, d, b, c];
    assert forall i :: 0 <= i < 3 ==> RatingKey(e[i]) < RatingKey(e[i + 1]);
  }

  /** Moving the last of four records to second place is a permutation. */
  lemma FourPermuted(list: seq<Anime>)
    requires |list| == 4
    ensures multiset([list[0], list[3], list[1], list[2]]) == multiset(list)
  {
    assert list == [list[0], list[1], list[2], list[3]];
  }

  /** Four records rated 9.0, 8.7, 8.4 and 8.9, as in the seed, sort to the order 1st, 4th, 2nd, 3rd. */
  lemma FourRatedSorted(list: seq<Anime>)
    requires |list| == 4
    requires list[0].rating == 9.0 && list[1].rating == 8.7 && list[2].rating == 8.4 && list[3].rating == 8.9
    ensures SortBy(list, RatingKey) == [list[0], list[3], list[1], list[2]]
  {
    var expected := [list[0], list[3], list[1], list[2]];
    FourPermuted(list);
    FourRatedOrder(list[0], list[1], list[2], list[3]);
    SortedUnique(expected, SortBy(list, RatingKey), RatingKey);
  }

  /** The same four records: the top three are the first, the fourth and the second. */
  lemma FourRatedTopThree(list: seq<Anime>)
    requires |list| == 4
    requires list[0].rating == 9.0 && list[1].rating == 8.7 && list[2].rating == 8.4 && list[3].rating == 8.9
    ensures PopularAnime(list) == [list[0], list[3], list[1]]
  {
    FourRatedSorted(list);
    TopThreeOfSorted(list, SortBy(list, RatingKey));
  }

  /** The top three are the first three of the sorted copy. */
  lemma TopThreeOfSorted(list: seq<Anime>, sorted: seq<Anime>)
    requires sorted == SortBy(list, RatingKey) && |sorted| >= 3
    ensures PopularAnime(list) == [sorted[0], sorted[1], sorted[2]]
  {
    assert Take(sorted, 3) == sorted[..3];
  }

  /** On the seed the top three are ids 1, 4 and 2. */
  lemma SeedTopThree()
    ensures |PopularAnime(InitialAnimeData)| == 3
    ensures PopularAnime(InitialAnimeData)[0].id == 1
    ensures PopularAnime(InitialAnimeData)[1].id == 4
    ensures PopularAnime(InitialAnimeData)[2].id == 2
  {
    FourRatedTopThree(InitialAnimeData);
  }
}
