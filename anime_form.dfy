/**
 * The admin app's add/edit form (`pages/AnimeForm.tsx`): the form fields,
 * the selected-genre editing, the offered genre buttons, and the submit
 * that validates and then saves to the store.
 */
module AnimeFormPage {
  import opened Wrappers
  import opened Seqs
  import opened Text
  import opened AnimeContext

  /** `AnimeFormData`: the description is a plain string here, "" when empty. */
  datatype FormData = FormData(
    title: string,
    titleJapanese: string,
    description: string,
    episodes: int,
    rating: real,
    year: int,
    studio: string,
    status: string,
    genres: seq<string>,
    image: string)

  /** The status choices. */
  const StatusOptions: seq<string> := ["Ongoing", "Completed", "Upcoming", "Movie"]

  /** The genres offered as buttons. */
  const AvailableGenres: seq<string> := [
    "Action", "Adventure", "Comedy", "Drama", "Fantasy", "Horror",
    "Mystery", "Romance", "Sci-Fi", "Supernatural", "Thriller", "Historical",
    "Sports", "Music", "School", "Military", "Mecha"]

  /** The empty form; `new Date().getFullYear()` is the parameter `currentYear`. */
  function EmptyForm(currentYear: int): (f: FormData)
    ensures f.genres == [] && f.title == "" && f.image == "" && f.status == "Upcoming"
  {
    FormData("", "", "", 0, 0.0, currentYear, "", "Upcoming", [], "")
  }

  /** The form filled from a stored record for editing; a missing description becomes "". */
  function FormFromAnime(a: Anime): FormData {
    FormData(a.title, a.titleJapanese, a.description.GetOr(""), a.episodes, a.rating, a.year,
      a.studio, a.status, a.genre, a.image)
  }

  // ---------------------------------------------------------------------------
  // genre editing
  // ---------------------------------------------------------------------------

  /** `handleGenreAdd`: a non-empty genre not yet selected is appended; anything else changes nothing. */
  function AddGenre(genres: seq<string>, genre: string): (r: seq<string>)
    ensures genre != "" && genre !in genres ==> r == genres + [genre]
    ensures genre == "" || genre in genres ==> r == genres
    ensures genre != "" ==> genre in r
  {
    if genre != "" && genre !in genres then genres + [genre] else genres
  }

  /** `handleGenreRemove`: every occurrence of the genre goes, the others keep their order. */
  function RemoveGenre(genres: seq<string>, genre: string): (r: seq<string>)
    ensures forall g :: g in r <==> g in genres && g != genre
    ensures forall g :: multiset(r)[g] == if g != genre then multiset(genres)[g] else 0
    ensures IsSubseq(r, genres)
  {
    Filter(genres, g => g != genre)
  }

  /** Adding never creates a duplicate. */
  lemma AddKeepsNoDup(genres: seq<string>, genre: string)
    requires NoDup(genres)
    ensures NoDup(AddGenre(genres, genre))
  {
    if genre != "" && genre !in genres {
      var r := genres + [genre];
      forall i, j | 0 <= i < j < |r| ensures r[i] != r[j] {
        if j == |genres| {
          assert r[i] == genres[i] && genres[i] in genres;
        } else {
          assert r[i] == genres[i] && r[j] == genres[j];
        }
      }
    }
  }

  /** Removing never creates a duplicate. */
  lemma RemoveKeepsNoDup(genres: seq<string>, genre: string)
    requires NoDup(genres)
    ensures NoDup(RemoveGenre(genres, genre))
  {
    FilterKeepsDistinctKeys(genres, g => g != genre, (g: string) => g);
  }

  /** Removing a genre that was just added restores the list. */
  lemma AddThenRemove(genres: seq<string>, genre: string)
    requires genre !in genres
    ensures RemoveGenre(AddGenre(genres, genre), genre) == genres
  {
    var p := (g: string) => g != genre;
    FilterAll(genres, p);
    if genre != "" {
      FilterAppend(genres, [genre], p);
      assert Filter([genre], p) == [];
    } else {
      FilterAll(genres, p);
    }
  }

  /** One click on a genre button or badge. */
  datatype GenreEdit = AddEdit(genre: string) | RemoveEdit(genre: string)

  /** The selected genres after a sequence of clicks. */
  function ApplyEdits(genres: seq<string>, edits: seq<GenreEdit>): seq<string>
    decreases |edits|
  {
    if edits == [] then genres
    else
      var next := match edits[0]
        case AddEdit(g) => AddGenre(genres, g)
        case RemoveEdit(g) => RemoveGenre(genres, g);
      ApplyEdits(next, edits[1..])
  }

  /** The selected genres stay duplicate-free under any sequence of adds and removes. */
  lemma {:induction false} EditsKeepNoDup(genres: seq<string>, edits: seq<GenreEdit>)
    requires NoDup(genres)
    ensures NoDup(ApplyEdits(genres, edits))
    decreases |edits|
  {
    if edits != [] {
      match edits[0]
      case AddEdit(g) =>
        AddKeepsNoDup(genres, g);
        EditsKeepNoDup(AddGenre(genres, g), edits[1..]);
      case RemoveEdit(g) =>
        RemoveKeepsNoDup(genres, g);
        EditsKeepNoDup(RemoveGenre(genres, g), edits[1..]);
    }
  }

  /** The genre buttons: the available genres not yet selected, in their listed order. */
  function OfferedGenres(selected: seq<string>): (r: seq<string>)
    ensures forall g :: g in r <==> g in AvailableGenres && g !in selected
    ensures IsSubseq(r, AvailableGenres)
  {
    Filter(AvailableGenres, g => g !in selected)
  }

  /** Clicking an offered button appends that genre, and its button disappears. */
  lemma OfferedClickSelects(selected: seq<string>, g: string)
    requires g in OfferedGenres(selected)
    ensures AddGenre(selected, g) == selected + [g]
    ensures g !in OfferedGenres(AddGenre(selected, g))
  {
    AvailableNotBlank();
    var added := AddGenre(selected, g);
    assert added == selected + [g];
    assert g in added;
  }

  /** No available genre is the empty string. */
  lemma AvailableNotBlank()
    ensures "" !in AvailableGenres
  {
  }

  // ---------------------------------------------------------------------------
  // field edits
  // ---------------------------------------------------------------------------

  /** `handleInputChange(field, value)` for each field it is used with. */
  datatype FieldEdit =
    | TitleInput(title: string)
    | TitleJapaneseInput(titleJapanese: string)
    | DescriptionInput(description: string)
    | EpisodesInput(episodes: int)
    | RatingInput(rating: real)
    | YearInput(year: int)
    | StudioInput(studio: string)
    | StatusInput(status: string)
    | ImageInput(image: string)

  /** One field takes the new value; the selected genres are never touched. */
  function ApplyInput(f: FormData, e: FieldEdit): (r: FormData)
    ensures r.genres == f.genres
  {
    match e
    case TitleInput(v) => f.(title := v)
    case TitleJapaneseInput(v) => f.(titleJapanese := v)
    case DescriptionInput(v) => f.(description := v)
    case EpisodesInput(v) => f.(episodes := v)
    case RatingInput(v) => f.(rating := v)
    case YearInput(v) => f.(year := v)
    case StudioInput(v) => f.(studio := v)
    case StatusInput(v) => f.(status := v)
    case ImageInput(v) => f.(image := v)
  }

  // ---------------------------------------------------------------------------
  // submit
  // ---------------------------------------------------------------------------

  /** What submit does: one of the two rejections, or a save of the built record. */
  datatype SubmitOutcome = MissingTitle | MissingGenres | Saved(record: NewAnime)

  /** The record `handleSubmit` saves: the fields copied, an empty image replaced by the placeholder. */
  function BuildRecord(f: FormData): (n: NewAnime)
    ensures n.image != ""
    ensures f.image != "" ==> n.image == f.image
    ensures n.description == Some(f.description) && n.genre == f.genres
  {
    NewAnime(f.title, f.titleJapanese, Some(f.description), f.genres, f.rating, f.episodes,
      f.status, f.year, f.studio, if f.image == "" then "/placeholder.svg" else f.image)
  }

  /** Validation: the title is checked first, then the genres; only then is the record built. */
  function Submit(f: FormData): (o: SubmitOutcome)
    ensures o == MissingTitle <==> IsBlank(f.title)
    ensures o == MissingGenres <==> !IsBlank(f.title) && f.genres == []
    ensures o.Saved? <==> !IsBlank(f.title) && f.genres != []
    ensures o.Saved? ==> o.record == BuildRecord(f)
  {
    if IsBlank(f.title) then MissingTitle
    else if |f.genres| == 0 then MissingGenres
    else Saved(BuildRecord(f))
  }

  /**
   * The store after a submit: a rejection leaves it alone; a save updates the
   * record under the route id when editing and adds a new record otherwise.
   */
  function AfterSubmit(list: seq<Anime>, f: FormData, editId: Option<int>): (r: seq<Anime>)
    ensures !Submit(f).Saved? ==> r == list
    ensures Submit(f).Saved? && editId.Some? ==> r == Updated(list, editId.value, AsUpdate(BuildRecord(f)))
    ensures Submit(f).Saved? && editId.None? ==> r == Added(list, BuildRecord(f))
  {
    match Submit(f)
    case Saved(n) => if editId.Some? then Updated(list, editId.value, AsUpdate(n)) else Added(list, n)
    case _ => list
  }

  /** Every submit keeps the store's ids unique. */
  lemma SubmitKeepsUnique(list: seq<Anime>, f: FormData, editId: Option<int>)
    requires UniqueIds(list)
    ensures UniqueIds(AfterSubmit(list, f, editId))
  {
    if Submit(f).Saved? {
      if editId.Some? {
        UpdateKeepsUnique(list, editId.value, AsUpdate(BuildRecord(f)));
      } else {
        AddKeepsUnique(list, BuildRecord(f));
      }
    }
  }

  /** Saving an edit: the record under the route id is the built record, with its id kept. */
  lemma EditSaves(list: seq<Anime>, f: FormData, a: Anime)
    requires UniqueIds(list) && a in list
    requires Submit(f).Saved?
    ensures Find(AfterSubmit(list, f, Some(a.id)), a.id) == Some(WithId(BuildRecord(f), a.id))
  {
    FindAfterUpdate(list, a.id, AsUpdate(BuildRecord(f)), a);
    MergeAsUpdate(a, BuildRecord(f));
  }

  /** Saving a new record: it is found under the next id. */
  lemma AddSaves(list: seq<Anime>, f: FormData)
    requires Submit(f).Saved?
    ensures Find(AfterSubmit(list, f, None), NextId(list)) == Some(WithId(BuildRecord(f), NextId(list)))
  {
    FindAfterAdd(list, BuildRecord(f));
  }

  /**
   * Loading a valid record into the form and saving it unchanged writes the
   * same fields back, when it has a description and an image.
   */
  lemma LoadThenSave(a: Anime)
    requires !IsBlank(a.title) && a.genre != []
    requires a.description.Some? && a.image != ""
    ensures Submit(FormFromAnime(a)) == Saved(Fields(a))
  {
  }

  /** A record saved unchanged without a description comes back with the description "" and the placeholder if it had no image. */
  lemma LoadThenSaveFillsDefaults(a: Anime)
    requires !IsBlank(a.title) && a.genre != []
    ensures Submit(FormFromAnime(a)).Saved?
    ensures Submit(FormFromAnime(a)).record.description == Some(a.description.GetOr(""))
    ensures a.image == "" ==> Submit(FormFromAnime(a)).record.image == "/placeholder.svg"
  {
  }

  /** The form page: `formData` and the custom-genre input `newGenre`. */
  class AnimeForm {
    var formData: FormData
    var newGenre: string

    constructor (currentYear: int)
      ensures formData == EmptyForm(currentYear) && newGenre == ""
    {
      formData := EmptyForm(currentYear);
      newGenre := "";
    }

    /** The effect that fills the form when editing a record the store has; otherwise nothing changes. */
    method LoadForEditing(store: AnimeStore, id: int)
      modifies this
      ensures Find(store.animeList, id).Some? ==> formData == FormFromAnime(Find(store.animeList, id).value)
      ensures Find(store.animeList, id).None? ==> formData == old(formData)
      ensures newGenre == old(newGenre)
    {
      var anime := store.GetAnimeById(id);
      if anime.Some? {
        FindIsFirst(store.animeList, id);
        var i :| FirstWithId(store.animeList, id, i) && store.animeList[i] == anime.value;
        var j :| FirstWithId(store.animeList, id, j) && store.animeList[j] == Find(store.animeList, id).value;
        assert i == j;
        formData := FormFromAnime(anime.value);
      }
    }

    /** `handleInputChange`. */
    method HandleInputChange(e: FieldEdit)
      modifies this
      ensures formData == ApplyInput(old(formData), e) && newGenre == old(newGenre)
    {
      formData := ApplyInput(formData, e);
    }

    /** The custom-genre input's `onChange`. */
    method SetNewGenre(value: string)
      modifies this
      ensures newGenre == value && formData == old(formData)
    {
      newGenre := value;
    }

    /** `handleGenreAdd`: the genre is added when new and non-empty, and the input is always cleared. */
    method HandleGenreAdd(genre: string)
      modifies this
      ensures formData == old(formData).(genres := AddGenre(old(formData.genres), genre))
      ensures newGenre == ""
      ensures old(NoDup(formData.genres)) ==> NoDup(formData.genres)
    {
      if genre != "" && genre !in formData.genres {
        formData := formData.(genres := formData.genres + [genre]);
      }
      newGenre := "";
      if NoDup(old(formData.genres)) {
        AddKeepsNoDup(old(formData.genres), genre);
      }
    }

    /** `handleGenreRemove`. */
    method HandleGenreRemove(genre: string)
      modifies this
      ensures formData == old(formData).(genres := RemoveGenre(old(formData.genres), genre))
      ensures newGenre == old(newGenre)
      ensures old(NoDup(formData.genres)) ==> NoDup(formData.genres)
    {
      if NoDup(formData.genres) {
        RemoveKeepsNoDup(formData.genres, genre);
      }
      formData := formData.(genres := RemoveGenre(formData.genres, genre));
    }

    /**
     * `handleSubmit`: rejections leave the store alone; a save calls
     * `updateAnime` with the route id when editing and `addAnime` otherwise.
     */
    method HandleSubmit(store: AnimeStore, editId: Option<int>) returns (outcome: SubmitOutcome)
      modifies store
      ensures outcome == Submit(formData)
      ensures store.animeList == AfterSubmit(old(store.animeList), formData, editId)
    {
      if IsBlank(formData.title) {
        return MissingTitle;
      }
      if |formData.genres| == 0 {
        return MissingGenres;
      }
      var record := BuildRecord(formData);
      if editId.Some? {
        store.UpdateAnime(editId.value, AsUpdate(record));
      } else {
        store.AddAnime(record);
      }
      outcome := Saved(record);
    }
  }
}
