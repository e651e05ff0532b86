/**
 * The admin app's catalog store (`contexts/AnimeContext.tsx`): a list of
 * records with add, update, delete and look-up by numeric id.
 */
module AnimeContext {
  import opened Wrappers
  import opened Seqs

  /** One admin record; `description` is the optional `description?`. */
  datatype Anime = Anime(
    id: int,
    title: string,
    titleJapanese: string,
    description: Option<string>,
    genre: seq<string>,
    rating: real,
    episodes: int,
    status: string,
    year: int,
    studio: string,
    image: string)

  /** `Omit<Anime, 'id'>`: what `addAnime` receives. */
  datatype NewAnime = NewAnime(
    title: string,
    titleJapanese: string,
    description: Option<string>,
    genre: seq<string>,
    rating: real,
    episodes: int,
    status: string,
    year: int,
    studio: string,
    image: string)

  /** `Partial<Anime>`: what `updateAnime` receives; an absent field is left as it is. */
  datatype AnimeUpdate = AnimeUpdate(
    id: Option<int>,
    title: Option<string>,
    titleJapanese: Option<string>,
    description: Option<string>,
    genre: Option<seq<string>>,
    rating: Option<real>,
    episodes: Option<int>,
    status: Option<string>,
    year: Option<int>,
    studio: Option<string>,
    image: Option<string>)

  /** The update that changes nothing: `{}`. */
  const NoChange: AnimeUpdate := AnimeUpdate(None, None, None, None, None, None, None, None, None, None, None)

  /** `{ ...newAnime, id }`. */
  function WithId(n: NewAnime, id: int): (a: Anime)
    ensures a.id == id && Fields(a) == n
  {
    Anime(id, n.title, n.titleJapanese, n.description, n.genre, n.rating, n.episodes,
      n.status, n.year, n.studio, n.image)
  }

  /** Every field but the id. */
  function Fields(a: Anime): NewAnime {
    NewAnime(a.title, a.titleJapanese, a.description, a.genre, a.rating, a.episodes,
      a.status, a.year, a.studio, a.image)
  }

  /** `{ ...anime, ...updates }`: each field the update carries replaces the record's. */
  function Merge(a: Anime, u: AnimeUpdate): Anime {
    Anime(
      u.id.GetOr(a.id),
      u.title.GetOr(a.title),
      u.titleJapanese.GetOr(a.titleJapanese),
      if u.description.Some? then u.description else a.description,
      u.genre.GetOr(a.genre),
      u.rating.GetOr(a.rating),
      u.episodes.GetOr(a.episodes),
      u.status.GetOr(a.status),
      u.year.GetOr(a.year),
      u.studio.GetOr(a.studio),
      u.image.GetOr(a.image))
  }

  /** The update that writes every field of `n` and leaves the id alone. */
  function AsUpdate(n: NewAnime): AnimeUpdate {
    AnimeUpdate(None, Some(n.title), Some(n.titleJapanese), n.description, Some(n.genre),
      Some(n.rating), Some(n.episodes), Some(n.status), Some(n.year), Some(n.studio), Some(n.image))
  }

  /** Merging the full update built from a record with a description replaces every field but the id. */
  lemma MergeAsUpdate(a: Anime, n: NewAnime)
    requires n.description.Some?
    ensures Merge(a, AsUpdate(n)) == WithId(n, a.id)
  {
  }

  /** No two records share an id. */
  predicate UniqueIds(list: seq<Anime>) {
    forall i, j :: 0 <= i < j < |list| ==> list[i].id != list[j].id
  }

  /** `Math.max(...ids, 0)`: the largest id, or 0 when there is none larger. */
  function MaxId(list: seq<Anime>): (m: int)
    ensures m >= 0
    ensures forall a :: a in list ==> a.id <= m
    ensures m == 0 || exists a :: a in list && a.id == m
    decreases |list|
  {
    if list == [] then 0
    else
      var rest := MaxId(list[1..]);
      assert forall a :: a in list[1..] ==> a in list;
      if list[0].id > rest then list[0].id else rest
  }

  /** The id `addAnime` assigns: one more than the largest id, or 1 for a list with no positive id. */
  function NextId(list: seq<Anime>): (id: int)
    ensures id >= 1
    ensures forall a :: a in list ==> a.id < id
    ensures id == 1 || exists a :: a in list && a.id == id - 1
  {
    MaxId(list) + 1
  }

  /** `addAnime`: the new record, with a fresh id, goes in front of the old list. */
  function Added(list: seq<Anime>, n: NewAnime): (r: seq<Anime>)
    ensures |r| == |list| + 1
    ensures r[0] == WithId(n, NextId(list)) && r[1..] == list
    ensures forall a :: a in list ==> a.id != r[0].id
  {
    [WithId(n, NextId(list))] + list
  }

  /** `updateAnime`: `map` merging the update into every record with that id. */
  function Updated(list: seq<Anime>, id: int, u: AnimeUpdate): (r: seq<Anime>)
    ensures |r| == |list|
    ensures forall i :: 0 <= i < |list| ==> r[i] == if list[i].id == id then Merge(list[i], u) else list[i]
    decreases |list|
  {
    if list == [] then []
    else [if list[0].id == id then Merge(list[0], u) else list[0]] + Updated(list[1..], id, u)
  }

  /** `deleteAnime`: `filter` keeping the records with another id, in order. */
  function Deleted(list: seq<Anime>, id: int): (r: seq<Anime>)
    ensures forall a :: a in r <==> a in list && a.id != id
    ensures forall a :: multiset(r)[a] == if a.id != id then multiset(list)[a] else 0
    ensures IsSubseq(r, list)
  {
    Filter(list, (a: Anime) => a.id != id)
  }

  /** `getAnimeById`: `find`, the first record with that id. */
  function Find(list: seq<Anime>, id: int): (r: Option<Anime>)
    ensures r.None? <==> forall a :: a in list ==> a.id != id
    ensures r.Some? ==> r.value in list && r.value.id == id
    decreases |list|
  {
    if list == [] then None
    else if list[0].id == id then Some(list[0])
    else
      assert forall a :: a in list[1..] ==> a in list;
      assert forall a :: a in list ==> a == list[0] || a in list[1..];
      Find(list[1..], id)
  }

  /** `i` is the position of the first record with that id. */
  predicate FirstWithId(list: seq<Anime>, id: int, i: int) {
    0 <= i < |list| && list[i].id == id && forall k :: 0 <= k < i ==> list[k].id != id
  }

  /** The four seed records: ids 1 to 4. */
  const InitialAnimeData: seq<Anime> := [
    Anime(1, "Attack on Titan", "進撃の巨人",
      Some("เรื่องราวของมนุษย์ที่ต้องต่อสู้กับยักษ์ที่กินคนเพื่อความอยู่รอด"),
      ["Action", "Drama", "Fantasy"], 9.0, 75, "Completed", 2013, "Mappa", "/placeholder.svg"),
    Anime(2, "Demon Slayer", "鬼滅の刃",
      Some("การผจญภัยของ Tanjiro ในการกลายเป็นนักฆ่าปีศาจเพื่อช่วยน้องสาว"),
      ["Action", "Supernatural", "Historical"], 8.7, 32, "Ongoing", 2019, "Ufotable", "/placeholder.svg"),
    Anime(3, "Your Name", "君の名は",
      Some("เรื่องราวรักโรแมนติกระหว่างชายหญิงที่สลับร่างกัน"),
      ["Romance", "Drama", "Fantasy"], 8.4, 1, "Movie", 2016, "CoMix Wave Films", "/placeholder.svg"),
    Anime(4, "One Piece", "ワンピース",
      Some("การผจญภัยของ Monkey D. Luffy และลูกเรือในการค้นหา One Piece"),
      ["Action", "Adventure", "Comedy"], 8.9, 1000, "Ongoing", 1999, "Toei Animation", "/placeholder.svg")
  ]

  // ---------------------------------------------------------------------------
  // properties
  // ---------------------------------------------------------------------------

  /** `getAnimeById` returns the first record with that id: none before it matches. */
  lemma {:induction false} FindIsFirst(list: seq<Anime>, id: int)
    requires Find(list, id).Some?
    ensures exists i :: FirstWithId(list, id, i) && list[i] == Find(list, id).value
    decreases |list|
  {
    if list[0].id != id {
      FindIsFirst(list[1..], id);
      var i :| FirstWithId(list[1..], id, i) && list[1..][i] == Find(list[1..], id).value;
      assert list[i + 1] == Find(list, id).value;
      forall k | 0 <= k < i + 1 ensures list[k].id != id {
        if k > 0 {
          assert list[k] == list[1..][k - 1];
        }
      }
      assert FirstWithId(list, id, i + 1);
    } else {
      assert FirstWithId(list, id, 0);
      assert list[0] == Find(list, id).value;
    }
  }

  /** With unique ids, the record found is the only one with that id. */
  lemma FindUnique(list: seq<Anime>, id: int, a: Anime)
    requires UniqueIds(list) && a in list && a.id == id
    ensures Find(list, id) == Some(a)
  {
    FindIsFirst(list, id);
    var i :| FirstWithId(list, id, i) && list[i] == Find(list, id).value;
    var j :| 0 <= j < |list| && list[j] == a;
  }

  /** The seed ids are unique. */
  lemma SeedUniqueIds()
    ensures UniqueIds(InitialAnimeData)
    ensures forall i :: 0 <= i < |InitialAnimeData| ==> InitialAnimeData[i].id == i + 1
  {
  }

  /** An added record gets an id no other record has, and the ids stay unique. */
  lemma AddKeepsUnique(list: seq<Anime>, n: NewAnime)
    requires UniqueIds(list)
    ensures UniqueIds(Added(list, n))
  {
    var r := Added(list, n);
    forall i, j | 0 <= i < j < |r| ensures r[i].id != r[j].id {
      assert r[j] == list[j - 1];
      if i > 0 {
        assert r[i] == list[i - 1];
      } else {
        assert list[j - 1] in list;
      }
    }
  }

  /** The new record is found under its new id. */
  lemma FindAfterAdd(list: seq<Anime>, n: NewAnime)
    ensures Find(Added(list, n), NextId(list)) == Some(WithId(n, NextId(list)))
  {
  }

  /** An id nobody has: `updateAnime` leaves the list as it was. */
  lemma UpdateUnknownId(list: seq<Anime>, id: int, u: AnimeUpdate)
    requires forall a :: a in list ==> a.id != id
    ensures Updated(list, id, u) == list
  {
    var r := Updated(list, id, u);
    forall i | 0 <= i < |list| ensures r[i] == list[i] {
      assert list[i] in list;
    }
  }

  /** The empty update `{}` leaves the list as it was. */
  lemma UpdateNothing(list: seq<Anime>, id: int)
    ensures Updated(list, id, NoChange) == list
  {
    var r := Updated(list, id, NoChange);
    forall i | 0 <= i < |list| ensures r[i] == list[i] {
    }
  }

  /** An update that does not move the record to another id keeps the ids unique. */
  lemma UpdateKeepsUnique(list: seq<Anime>, id: int, u: AnimeUpdate)
    requires UniqueIds(list)
    requires u.id.None? || u.id == Some(id)
    ensures UniqueIds(Updated(list, id, u))
  {
    var r := Updated(list, id, u);
    assert forall i :: 0 <= i < |list| ==> r[i].id == list[i].id;
  }

  /** After an update the record under that id carries the merged fields. */
  lemma FindAfterUpdate(list: seq<Anime>, id: int, u: AnimeUpdate, a: Anime)
    requires UniqueIds(list) && a in list && a.id == id
    requires u.id.None? || u.id == Some(id)
    ensures Find(Updated(list, id, u), id) == Some(Merge(a, u))
  {
    var r := Updated(list, id, u);
    var j :| 0 <= j < |list| && list[j] == a;
    assert r[j] == Merge(a, u);
    UpdateKeepsUnique(list, id, u);
    FindUnique(r, id, Merge(a, u));
  }

  /** An id nobody has: `deleteAnime` leaves the list as it was. */
  lemma DeleteUnknownId(list: seq<Anime>, id: int)
    requires forall a :: a in list ==> a.id != id
    ensures Deleted(list, id) == list
  {
    FilterAll(list, (a: Anime) => a.id != id);
  }

  /** Deleting keeps the remaining ids unique. */
  lemma DeleteKeepsUnique(list: seq<Anime>, id: int)
    requires UniqueIds(list)
    ensures UniqueIds(Deleted(list, id))
  {
    FilterKeepsDistinctKeys(list, (a: Anime) => a.id != id, (a: Anime) => a.id);
  }

  /** After `deleteAnime(id)`, `getAnimeById(id)` finds nothing. */
  lemma FindAfterDelete(list: seq<Anime>, id: int)
    ensures Find(Deleted(list, id), id) == None
  {
  }

  /**
   * Ids come from the current maximum: after deleting the record with the
   * largest id, the next record gets an id no larger than the deleted one,
   * and exactly that id when the id below it is taken or is 0.
   */
  lemma DeleteMaxThenAdd(list: seq<Anime>)
    requires NextId(list) > 1
    ensures NextId(Deleted(list, NextId(list) - 1)) <= NextId(list) - 1
    ensures (NextId(list) == 2 || exists a :: a in list && a.id == NextId(list) - 2) ==>
      NextId(Deleted(list, NextId(list) - 1)) == NextId(list) - 1
  {
    var m := NextId(list) - 1;
    var rest := Deleted(list, m);
    assert forall a :: a in rest ==> a.id < m;
    if exists a :: a in list && a.id == m - 1 {
      var a :| a in list && a.id == m - 1;
      assert a in rest;
    }
  }

  /**
   * A list whose ids are 1, 2, 3, 4 in order: deleting record 4 and adding a
   * record gives the new record id 4 again.
   */
  lemma IdsOneToFourReuse(list: seq<Anime>, n: NewAnime)
    requires |list| == 4 && forall i :: 0 <= i < 4 ==> list[i].id == i + 1
    ensures NextId(list) == 5
    ensures Added(Deleted(list, 4), n)[0].id == 4
  {
    assert list[3] in list && list[2] in list;
    assert forall a :: a in list ==> a.id <= 4 by {
      forall a | a in list ensures a.id <= 4 {
        var i :| 0 <= i < |list| && list[i] == a;
      }
    }
    DeleteMaxThenAdd(list);
  }

  /** On the seed: the next id is 5, and after deleting record 4 the next record is 4 again. */
  lemma SeedDeleteFourThenAdd(n: NewAnime)
    ensures NextId(InitialAnimeData) == 5
    ensures Added(Deleted(InitialAnimeData, 4), n)[0].id == 4
  {
    SeedUniqueIds();
    IdsOneToFourReuse(InitialAnimeData, n);
  }

  /** The store: `animeList` is replaced by each operation. */
  class AnimeStore {
    var animeList: seq<Anime>

    constructor ()
      ensures animeList == InitialAnimeData
      ensures UniqueIds(animeList)
    {
      animeList := InitialAnimeData;
      SeedUniqueIds();
    }

    /** `addAnime`. */
    method AddAnime(newAnime: NewAnime)
      modifies this
      ensures animeList == Added(old(animeList), newAnime)
      ensures old(UniqueIds(animeList)) ==> UniqueIds(animeList)
    {
      var id := NextId(animeList);
      if UniqueIds(animeList) {
        AddKeepsUnique(animeList, newAnime);
      }
      animeList := [WithId(newAnime, id)] + animeList;
    }

    /** `updateAnime`. */
    method UpdateAnime(id: int, updates: AnimeUpdate)
      modifies this
      ensures animeList == Updated(old(animeList), id, updates)
      ensures old(UniqueIds(animeList)) && (updates.id.None? || updates.id == Some(id)) ==> UniqueIds(animeList)
    {
      if UniqueIds(animeList) && (updates.id.None? || updates.id == Some(id)) {
        UpdateKeepsUnique(animeList, id, updates);
      }
      animeList := Updated(animeList, id, updates);
    }

    /** `deleteAnime`. */
    method DeleteAnime(id: int)
      modifies this
      ensures animeList == Deleted(old(animeList), id)
      ensures old(UniqueIds(animeList)) ==> UniqueIds(animeList)
    {
      if UniqueIds(animeList) {
        DeleteKeepsUnique(animeList, id);
      }
      animeList := Deleted(animeList, id);
    }

    /** `getAnimeById`: the first record with that id, if any. */
    method GetAnimeById(id: int) returns (r: Option<Anime>)
      ensures r.None? <==> forall a :: a in animeList ==> a.id != id
      ensures r.Some? ==> r.value in animeList && r.value.id == id
      ensures r.Some? ==> exists i :: FirstWithId(animeList, id, i) && animeList[i] == r.value
    {
      r := Find(animeList, id);
      if r.Some? {
        FindIsFirst(animeList, id);
      }
    }
  }
}
