/**
 * The update feed (`pages/UpdatesPage.tsx`): the day selector, the
 * filtered feed sorted newest first, and the per-day counts on the buttons.
 */
module UpdatesPage {
  import opened Wrappers
  import opened LensTypes
  import opened Seqs
  import MockData

  /** `selectedDay`: 'All' or one of the seven day tags. */
  datatype DaySelection = All | OnDay(day: Day)

  /** The page opens on 'All'. */
  const InitialSelection: DaySelection := All

  /** 'All' keeps the entries that have a `lastUpdate`; a day keeps the entries tagged with it. */
  predicate Keeps(selection: DaySelection, a: Anime) {
    match selection
    case All => a.lastUpdate.Some?
    case OnDay(d) => a.updateDay == Some(d)
  }

  /**
   * The date comparator is only a consistent order when every kept entry has
   * a date; without one it compares NaN. 'All' guarantees this by itself.
   */
  predicate KeptAreDated(catalog: seq<Anime>, selection: DaySelection) {
    forall a :: a in catalog && Keeps(selection, a) ==> a.lastUpdate.Some?
  }

  /**
   * `filteredAnimes`: the kept entries, most recent `lastUpdate` first;
   * entries with the same date keep their catalog order.
   */
  function FilteredAnimes(catalog: seq<Anime>, selection: DaySelection): (r: seq<Anime>)
    requires KeptAreDated(catalog, selection)
    ensures forall a :: a in r <==> a in catalog && Keeps(selection, a)
    ensures multiset(r) == multiset(Filter(catalog, a => Keeps(selection, a)))
    ensures forall a :: a in r ==> a.lastUpdate.Some?
    ensures forall i, j :: 0 <= i < j < |r| ==> r[i].lastUpdate.value >= r[j].lastUpdate.value
  {
    var kept := Filter(catalog, a => Keeps(selection, a));
    var r := SortBy(kept, RecencyKey);
    SortByMembers(kept, RecencyKey);
    NewestFirst(r);
    r
  }

  /** Entries with the same date appear in catalog order. */
  lemma FeedTiesKeepCatalogOrder(catalog: seq<Anime>, selection: DaySelection, k: real)
    requires KeptAreDated(catalog, selection)
    ensures Filter(FilteredAnimes(catalog, selection), HasKey(RecencyKey, k))
         == Filter(Filter(catalog, a => Keeps(selection, a)), HasKey(RecencyKey, k))
  {
    SortByStable(Filter(catalog, a => Keeps(selection, a)), RecencyKey, k);
  }

  /** Dated entries sorted by the recency key have non-increasing dates. */
  lemma NewestFirst(r: seq<Anime>)
    requires SortedBy(r, RecencyKey)
    requires forall a :: a in r ==> a.lastUpdate.Some?
    ensures forall i, j :: 0 <= i < j < |r| ==> r[i].lastUpdate.value >= r[j].lastUpdate.value
  {
    forall i, j | 0 <= i < j < |r|
      ensures r[i].lastUpdate.value >= r[j].lastUpdate.value
    {
      assert r[i] in r && r[j] in r;
      assert RecencyKey(r[i]) <= RecencyKey(r[j]);
    }
  }

  /** `getAnimesByDay(day)`: the entries tagged with that day, in catalog order. */
  function AnimesByDay(catalog: seq<Anime>, d: Day): (r: seq<Anime>)
    ensures forall a :: a in r <==> a in catalog && a.updateDay == Some(d)
    ensures forall a :: multiset(r)[a] == if a.updateDay == Some(d) then multiset(catalog)[a] else 0
    ensures IsSubseq(r, catalog)
  {
    Filter(catalog, (a: Anime) => a.updateDay == Some(d))
  }

  /** For a specific day the feed shows as many entries as that day's button counts. */
  lemma DayFeedMatchesCount(catalog: seq<Anime>, d: Day)
    requires KeptAreDated(catalog, OnDay(d))
    ensures |FilteredAnimes(catalog, OnDay(d))| == |AnimesByDay(catalog, d)|
  {
    var r := FilteredAnimes(catalog, OnDay(d));
    FilterCongruent(catalog, a => Keeps(OnDay(d), a), (a: Anime) => a.updateDay == Some(d));
    assert |r| == |multiset(r)|;
  }

  /** The seven counts on the day buttons. */
  function DayCountsTotal(catalog: seq<Anime>): nat {
    |AnimesByDay(catalog, Su)| + |AnimesByDay(catalog, M)| + |AnimesByDay(catalog, Tu)| +
    |AnimesByDay(catalog, W)| + |AnimesByDay(catalog, Th)| + |AnimesByDay(catalog, F)| +
    |AnimesByDay(catalog, Sa)|
  }

  /** How many entries of `catalog` are tagged with day `d`. */
  function CountOnDay(catalog: seq<Anime>, d: Day): nat
    decreases |catalog|
  {
    if catalog == [] then 0
    else (if catalog[0].updateDay == Some(d) then 1 else 0) + CountOnDay(catalog[1..], d)
  }

  /** How many entries of `catalog` carry some `updateDay`. */
  function CountTagged(catalog: seq<Anime>): (n: nat)
    ensures n <= |catalog|
    decreases |catalog|
  {
    if catalog == [] then 0
    else (if catalog[0].updateDay.Some? then 1 else 0) + CountTagged(catalog[1..])
  }

  /** A day's button shows the number of entries tagged with that day. */
  lemma {:induction false} ByDayCount(catalog: seq<Anime>, d: Day)
    ensures |AnimesByDay(catalog, d)| == CountOnDay(catalog, d)
    decreases |catalog|
  {
    if catalog != [] {
      ByDayCount(catalog[1..], d);
      DayCountStep(catalog, d);
    }
  }

  /** The first entry adds one to its own day's count and nothing to the others. */
  lemma DayCountStep(catalog: seq<Anime>, d: Day)
    requires catalog != []
    ensures |AnimesByDay(catalog, d)| ==
      (if catalog[0].updateDay == Some(d) then 1 else 0) + |AnimesByDay(catalog[1..], d)|
  {
  }

  /** Every tagged entry is counted under exactly one of the seven days. */
  lemma {:induction false} DayCountsPartition(catalog: seq<Anime>)
    ensures CountOnDay(catalog, Su) + CountOnDay(catalog, M) + CountOnDay(catalog, Tu) +
      CountOnDay(catalog, W) + CountOnDay(catalog, Th) + CountOnDay(catalog, F) +
      CountOnDay(catalog, Sa) == CountTagged(catalog)
    decreases |catalog|
  {
    if catalog != [] {
      DayCountsPartition(catalog[1..]);
      match catalog[0].updateDay
      case None =>
      case Some(Su) =>
      case Some(M) =>
      case Some(Tu) =>
      case Some(W) =>
      case Some(Th) =>
      case Some(F) =>
      case Some(Sa) =>
    }
  }

  /**
   * Each entry has at most one `updateDay`, so the seven counts on the day
   * buttons add up to the number of tagged entries, never more than the catalog.
   */
  lemma DayCountsAddUp(catalog: seq<Anime>)
    ensures DayCountsTotal(catalog) == CountTagged(catalog) <= |catalog|
  {
    ByDayCount(catalog, Su);
    ByDayCount(catalog, M);
    ByDayCount(catalog, Tu);
    ByDayCount(catalog, W);
    ByDayCount(catalog, Th);
    ByDayCount(catalog, F);
    ByDayCount(catalog, Sa);
    DayCountsPartition(catalog);
  }

  /** The seed feed for 'All', newest first. */
  const SeedAllOrder: seq<Anime> :=
    [MockData.Entry6, MockData.Entry3, MockData.Entry1, MockData.Entry2, MockData.Entry4,
     MockData.Entry5, MockData.Entry7, MockData.Entry8, MockData.Entry9, MockData.Entry10]

  lemma SeedOrderSorted()
    ensures SortedBy(SeedAllOrder, RecencyKey)
  {
  }

  lemma SeedOrderPermutes()
    ensures forall x :: x in SeedAllOrder <==> x in MockData.MockAnimeData
    ensures NoDup(SeedAllOrder)
  {
  }

  /** No two seed entries share a date. */
  lemma SeedDatesDistinct()
    ensures forall x, y ::
      x in MockData.MockAnimeData && y in MockData.MockAnimeData && RecencyKey(x) == RecencyKey(y) ==> x == y
  {
    var c := MockData.MockAnimeData;
    MockData.SeedDates();
    forall x, y | x in c && y in c && RecencyKey(x) == RecencyKey(y)
      ensures x == y
    {
      var i :| 0 <= i < |c| && c[i] == x;
      var j :| 0 <= j < |c| && c[j] == y;
    }
  }

  /**
   * On the seed catalog 'All' shows every entry, newest first: the ids are
   * 6, 3, 1, 2, 4, 5, 7, 8, 9, 10.
   */
  lemma SeedAllFeed()
    ensures FilteredAnimes(MockData.MockAnimeData, All) == SeedAllOrder
  {
    var c := MockData.MockAnimeData;
    MockData.SeedDates();
    MockData.SeedIds();
    SeedOrderSorted();
    SeedOrderPermutes();
    SeedDatesDistinct();
    assert NoDup(c);
    FeedIsOrder(c, SeedAllOrder);
  }

  /**
   * When every entry is dated and no two share a date, the 'All' feed is the
   * one arrangement of the catalog that is newest first.
   */
  lemma FeedIsOrder(c: seq<Anime>, order: seq<Anime>)
    requires forall a :: a in c ==> a.lastUpdate.Some?
    requires forall x, y :: x in c && y in c && RecencyKey(x) == RecencyKey(y) ==> x == y
    requires NoDup(c) && NoDup(order) && (forall x :: x in order <==> x in c)
    requires SortedBy(order, RecencyKey)
    ensures FilteredAnimes(c, All) == order
  {
    FilterAll(c, a => Keeps(All, a));
    var r := FilteredAnimes(c, All);
    NoDupPermutation(order, c);
    SortByMembers(c, RecencyKey);
    SortedUnique(r, order, RecencyKey);
  }
}
