/**
 * The discovery app's seed catalog (`data/mockData.ts`): ten entries that
 * every page reads, and the genre list of the search page's filter. Images
 * are imported asset modules in the source; here they are their file names.
 */
module MockData {
  import opened Wrappers
  import opened LensTypes
  import Seqs

  const Entry1: Anime := Anime(
    "1", "Mystic Chronicles",
    "A thrilling adventure following a young sorceress as she discovers her magical powers and fights against dark forces threatening her world.",
    "sample-anime-1.jpg", ["Fantasy", "Adventure", "Magic"], "Studio Mystic", "2024-01-15", "TV Series",
    Some(1), Some(20), Some(Su))

  const Entry2: Anime := Anime(
    "2", "Azure Legends",
    "Epic tale of warriors wielding elemental powers in a world where magic and technology collide in spectacular battles.",
    "sample-anime-2.jpg", ["Action", "Fantasy", "Drama"], "Azure Animation", "2024-02-01", "Movie",
    Some(2), Some(19), Some(M))

  const Entry3: Anime := Anime(
    "3", "Crimson Destiny",
    "A warrior's journey to master ancient fighting techniques while protecting his homeland from invasion.",
    "sample-anime-3.jpg", ["Action", "Martial Arts", "Adventure"], "Crimson Studios", "2024-01-30", "TV Series",
    Some(3), Some(21), Some(Tu))

  const Entry4: Anime := Anime(
    "4", "Kawaii Dreams",
    "Heartwarming slice-of-life story about friendship, dreams, and the everyday magic found in ordinary moments.",
    "sample-anime-4.jpg", ["Slice of Life", "Comedy", "Romance"], "Dreamland Animation", "2024-02-10", "TV Series",
    Some(4), Some(18), Some(W))

  const Entry5: Anime := Anime(
    "5", "Shadow Realm",
    "Dark fantasy exploring the boundaries between reality and nightmare as heroes venture into forbidden dimensions.",
    "sample-anime-1.jpg", ["Dark Fantasy", "Horror", "Supernatural"], "Shadow Productions", "2024-01-25", "OVA",
    Some(5), Some(17), Some(Th))

  const Entry6: Anime := Anime(
    "6", "Neon Tokyo 2099",
    "Cyberpunk adventure in a futuristic Tokyo where hackers and androids fight for freedom in a digital world.",
    "sample-anime-2.jpg", ["Cyberpunk", "Sci-Fi", "Action"], "Neon Studios", "2024-02-05", "TV Series",
    Some(6), Some(22), Some(F))

  const Entry7: Anime := Anime(
    "7", "Dragon Heart Academy",
    "School life meets fantasy as students learn to bond with dragons and master elemental magic.",
    "sample-anime-3.jpg", ["School", "Fantasy", "Adventure"], "Academy Animation", "2024-01-20", "TV Series",
    Some(7), Some(16), Some(Sa))

  const Entry8: Anime := Anime(
    "8", "Starlight Melody",
    "Musical adventure about aspiring idols who discover their songs have the power to heal hearts and save the world.",
    "sample-anime-4.jpg", ["Music", "Romance", "Supernatural"], "Melody Works", "2024-02-15", "Movie",
    Some(8), Some(15), Some(Su))

  const Entry9: Anime := Anime(
    "9", "Phantom Hunters",
    "Supernatural thriller following a team of investigators who hunt ghosts and other paranormal entities.",
    "sample-anime-1.jpg", ["Supernatural", "Thriller", "Action"], "Phantom Studios", "2024-01-12", "TV Series",
    Some(9), Some(14), Some(M))

  const Entry10: Anime := Anime(
    "10", "Royal Guardians",
    "Medieval fantasy about knights protecting a magical kingdom from dark forces while uncovering ancient mysteries.",
    "sample-anime-2.jpg", ["Medieval", "Fantasy", "Action"], "Royal Animation", "2024-01-08", "TV Series",
    Some(10), Some(13), Some(Tu))

  /** `mockAnimeData`. */
  const MockAnimeData: seq<Anime> :=
    [Entry1, Entry2, Entry3, Entry4, Entry5, Entry6, Entry7, Entry8, Entry9, Entry10]

  /** `genresList`: the 'All' sentinel first, then the genres the filter offers. */
  const GenresList: seq<string> :=
    ["All", "Action", "Adventure", "Comedy", "Drama", "Fantasy", "Horror",
     "Romance", "Sci-Fi", "Slice of Life", "Supernatural", "Thriller"]

  /** There are ten entries, and their ids '1'..'10' are pairwise distinct. */
  lemma SeedIds()
    ensures |MockAnimeData| == 10
    ensures forall i, j :: 0 <= i < j < |MockAnimeData| ==> MockAnimeData[i].id != MockAnimeData[j].id
  {
  }

  /** The i-th entry (counting from 1) has popularity i, so all popularities are distinct. */
  lemma SeedPopularity()
    ensures forall i :: 0 <= i < |MockAnimeData| ==> MockAnimeData[i].popularity == Some(i + 1)
  {
  }

  /**
   * Every entry has `lastUpdate` and `updateDay`; the dates are pairwise
   * distinct days between 2024-01-13 and 2024-01-22.
   */
  lemma SeedDates()
    ensures forall i :: 0 <= i < |MockAnimeData| ==>
      MockAnimeData[i].lastUpdate.Some? && MockAnimeData[i].updateDay.Some? &&
      13 <= MockAnimeData[i].lastUpdate.value <= 22
    ensures forall i, j :: 0 <= i < j < |MockAnimeData| ==>
      MockAnimeData[i].lastUpdate != MockAnimeData[j].lastUpdate
  {
  }

  /** `genresList` starts with the 'All' sentinel and lists no genre twice. */
  lemma GenresListShape()
    ensures |GenresList| > 0 && GenresList[0] == "All"
    ensures Seqs.NoDup(GenresList)
  {
  }
}
