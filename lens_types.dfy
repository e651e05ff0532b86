/** The record type of the discovery app (`types/anime.ts`). */
module LensTypes {
  import opened Wrappers

  /** The seven `updateDay` tags: 'Su' | 'M' | 'Tu' | 'W' | 'Th' | 'F' | 'Sa'. */
  datatype Day = Su | M | Tu | W | Th | F | Sa

  /**
   * One catalog entry. `popularity` is a rank, lower is more popular;
   * `lastUpdate` is the date of the latest episode as a day number (the
   * model counts days of January 2024, so '2024-01-13' is 13); the three are
   * optional and independent of one another.
   */
  datatype Anime = Anime(
    id: string,
    title: string,
    description: string,
    image: string,
    genres: seq<string>,
    publisher: string,
    first: string,
    format: string,
    popularity: Option<int>,
    lastUpdate: Option<int>,
    updateDay: Option<Day>)

  /** The search page's filter state; `{}` is all three absent. */
  datatype AnimeFilter = AnimeFilter(genre: Option<string>, format: Option<string>, publisher: Option<string>)

  /**
   * The popularity comparator `(a, b) => (a.popularity || 0) - (b.popularity || 0)`
   * sorts by this key (an absent rank, and the rank 0, count as 0).
   */
  function PopularityKey(a: Anime): real {
    a.popularity.GetOr(0) as real
  }

  /**
   * The recency comparator `(a, b) => date(b.lastUpdate) - date(a.lastUpdate)`
   * sorts by this key: the newest date has the smallest key. It is only
   * meaningful for entries whose `lastUpdate` is set.
   */
  function RecencyKey(a: Anime): real {
    -(a.lastUpdate.GetOr(0) as real)
  }
}
