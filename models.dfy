/** The canonical watched-item record and its conversion to and from the dict
    stored in the snapshot file (emby_to_trakt/models.py). */
module Models {
  import opened Wrappers
  import opened Documents

  /** One watched movie or episode. `itemType` is "movie" or "episode" for records
      built from the server; the record itself does not enforce it. */
  datatype WatchedItem = WatchedItem(
    embyId: string,
    title: string,
    itemType: string,
    watchedDate: Timestamp,
    playCount: int,
    isFullyWatched: bool,
    completionPercentage: real,
    playbackPositionTicks: int,
    runtimeTicks: int,
    imdbId: Option<string>,
    tmdbId: Option<string>,
    tvdbId: Option<string>,
    userRating: Option<real>,
    seriesName: Option<string>,
    seasonNumber: Option<int>,
    episodeNumber: Option<int>,
    rawMetadata: Document)

  /** Why a dict does not give a record: the `TypeError`, `KeyError` or
      `ValueError` raised by `from_dict`. */
  datatype ModelError =
    | MissingKeys(keys: set<string>)
    | UnexpectedKeys(keys: set<string>)
    | WrongType(key: string)
    | BadTimestamp(text: string)

  /** The fields without a default: `cls(**data)` fails when one is missing. */
  const RequiredFields: set<string> := {
    "emby_id", "title", "item_type", "watched_date", "play_count",
    "is_fully_watched", "completion_percentage", "playback_position_ticks",
    "runtime_ticks"
  }

  /** The fields with a default (`None`, or `{}` for `raw_metadata`). */
  const OptionalFields: set<string> := {
    "imdb_id", "tmdb_id", "tvdb_id", "user_rating", "series_name",
    "season_number", "episode_number", "raw_metadata"
  }

  const Fields: set<string> := RequiredFields + OptionalFields

  function OptStr(o: Option<string>): Value {
    if o.Some? then Str(o.value) else Null
  }

  function OptInt(o: Option<int>): Value {
    if o.Some? then Int(o.value) else Null
  }

  function OptReal(o: Option<real>): Value {
    if o.Some? then Real(o.value) else Null
  }

  /** `dataclasses.asdict`: every field under its own name, the datetime kept as an object. */
  function AsDict(x: WatchedItem): Document
  {
    map[
      "emby_id" := Str(x.embyId),
      "title" := Str(x.title),
      "item_type" := Str(x.itemType),
      "watched_date" := Time(x.watchedDate),
      "play_count" := Int(x.playCount),
      "is_fully_watched" := Bool(x.isFullyWatched),
      "completion_percentage" := Real(x.completionPercentage),
      "playback_position_ticks" := Int(x.playbackPositionTicks),
      "runtime_ticks" := Int(x.runtimeTicks),
      "imdb_id" := OptStr(x.imdbId),
      "tmdb_id" := OptStr(x.tmdbId),
      "tvdb_id" := OptStr(x.tvdbId),
      "user_rating" := OptReal(x.userRating),
      "series_name" := OptStr(x.seriesName),
      "season_number" := OptInt(x.seasonNumber),
      "episode_number" := OptInt(x.episodeNumber),
      "raw_metadata" := Dict(x.rawMetadata)
    ]
  }

  /** `to_dict`: `asdict` with only `watched_date` changed, into its ISO text. */
  function ToDict(x: WatchedItem): (d: Document)
    ensures d.Keys == Fields
    ensures d["watched_date"] == Str(IsoFormat(x.watchedDate))
    ensures forall k :: k in d && k != "watched_date" ==> d[k] == AsDict(x)[k]
  {
    AsDict(x)["watched_date" := Str(IsoFormat(x.watchedDate))]
  }

  /** The first step of `from_dict`, which rewrites the caller's dict in place:
      a string `watched_date` is replaced by the datetime it denotes, any other
      value is left alone, and no other key is touched. */
  function ConvertWatchedDate(d: Document): (r: Result<Document, ModelError>)
    ensures "watched_date" !in d ==> r == Err(MissingKeys({"watched_date"}))
    ensures r.Ok? ==> r.value.Keys == d.Keys
    ensures r.Ok? ==> forall k :: k in d && k != "watched_date" ==> r.value[k] == d[k]
    ensures "watched_date" in d && !d["watched_date"].Str? ==> r == Ok(d)
    ensures "watched_date" in d && d["watched_date"].Str? ==>
      match FromIsoFormat(d["watched_date"].s)
      case Some(t) => r == Ok(d["watched_date" := Time(t)])
      case None => r == Err(BadTimestamp(d["watched_date"].s))
  {
    if "watched_date" !in d then Err(MissingKeys({"watched_date"}))
    else
      match d["watched_date"]
      case Str(s) =>
        (match FromIsoFormat(s)
         case Some(t) => Ok(d["watched_date" := Time(t)])
         case None => Err(BadTimestamp(s)))
      case _ => Ok(d)
  }

  function StrField(d: Document, k: string): Result<string, ModelError>
    requires k in d
  {
    if d[k].Str? then Ok(d[k].s) else Err(WrongType(k))
  }

  function IntField(d: Document, k: string): Result<int, ModelError>
    requires k in d
  {
    if d[k].Int? then Ok(d[k].i) else Err(WrongType(k))
  }

  function BoolField(d: Document, k: string): Result<bool, ModelError>
    requires k in d
  {
    if d[k].Bool? then Ok(d[k].b) else Err(WrongType(k))
  }

  function RealField(d: Document, k: string): Result<real, ModelError>
    requires k in d
  {
    if d[k].Real? then Ok(d[k].r) else Err(WrongType(k))
  }

  function TimeField(d: Document, k: string): Result<Timestamp, ModelError>
    requires k in d
  {
    if d[k].Time? then Ok(d[k].t) else Err(WrongType(k))
  }

  /** An optional text field: absent or `None` gives the default `None`. */
  function OptStrField(d: Document, k: string): Result<Option<string>, ModelError> {
    if k !in d || d[k].Null? then Ok(None)
    else if d[k].Str? then Ok(Some(d[k].s))
    else Err(WrongType(k))
  }

  function OptIntField(d: Document, k: string): Result<Option<int>, ModelError> {
    if k !in d || d[k].Null? then Ok(None)
    else if d[k].Int? then Ok(Some(d[k].i))
    else Err(WrongType(k))
  }

  function OptRealField(d: Document, k: string): Result<Option<real>, ModelError> {
    if k !in d || d[k].Null? then Ok(None)
    else if d[k].Real? then Ok(Some(d[k].r))
    else Err(WrongType(k))
  }

  /** `raw_metadata`: absent gives the default empty dict. */
  function MetadataField(d: Document): Result<Document, ModelError> {
    if "raw_metadata" !in d then Ok(map[])
    else if d["raw_metadata"].Dict? then Ok(d["raw_metadata"].entries)
    else Err(WrongType("raw_metadata"))
  }

  /** `cls(**data)` on the converted dict: unknown keys and missing required keys
      are refused, absent optional keys take their defaults. */
  function Construct(d: Document): (r: Result<WatchedItem, ModelError>)
    ensures r.Ok? ==> d.Keys <= Fields && RequiredFields <= d.Keys
    ensures r.Ok? && "imdb_id" !in d ==> r.value.imdbId.None?
    ensures r.Ok? && "tmdb_id" !in d ==> r.value.tmdbId.None?
    ensures r.Ok? && "tvdb_id" !in d ==> r.value.tvdbId.None?
    ensures r.Ok? && "user_rating" !in d ==> r.value.userRating.None?
    ensures r.Ok? && "series_name" !in d ==> r.value.seriesName.None?
    ensures r.Ok? && "season_number" !in d ==> r.value.seasonNumber.None?
    ensures r.Ok? && "episode_number" !in d ==> r.value.episodeNumber.None?
    ensures r.Ok? && "raw_metadata" !in d ==> r.value.rawMetadata == map[]
  {
    if !(d.Keys <= Fields) then Err(UnexpectedKeys(d.Keys - Fields))
    else if !(RequiredFields <= d.Keys) then Err(MissingKeys(RequiredFields - d.Keys))
    else
      var embyId :- StrField(d, "emby_id");
      var title :- StrField(d, "title");
      var itemType :- StrField(d, "item_type");
      var watchedDate :- TimeField(d, "watched_date");
      var playCount :- IntField(d, "play_count");
      var isFullyWatched :- BoolField(d, "is_fully_watched");
      var completion :- RealField(d, "completion_percentage");
      var position :- IntField(d, "playback_position_ticks");
      var runtime :- IntField(d, "runtime_ticks");
      var imdbId :- OptStrField(d, "imdb_id");
      var tmdbId :- OptStrField(d, "tmdb_id");
      var tvdbId :- OptStrField(d, "tvdb_id");
      var rating :- OptRealField(d, "user_rating");
      var seriesName :- OptStrField(d, "series_name");
      var season :- OptIntField(d, "season_number");
      var episode :- OptIntField(d, "episode_number");
      var metadata :- MetadataField(d);
      Ok(WatchedItem(embyId, title, itemType, watchedDate, playCount, isFullyWatched,
                     completion, position, runtime, imdbId, tmdbId, tvdbId, rating,
                     seriesName, season, episode, metadata))
  }

  /** `from_dict`: convert the date, then construct. */
  function FromDict(d: Document): (r: Result<WatchedItem, ModelError>)
    ensures r.Ok? ==> RequiredFields <= d.Keys <= Fields
  {
    var converted :- ConvertWatchedDate(d);
    Construct(converted)
  }

  /** `asdict(x)` has every required key and no unknown one. */
  lemma AsDictKeys(x: WatchedItem)
    ensures AsDict(x).Keys == Fields
  {
  }

  /** The identifying fields of `asdict(x)` read back as `x`'s own values. */
  lemma AsDictIdentity(x: WatchedItem)
    ensures StrField(AsDict(x), "emby_id") == Ok(x.embyId)
    ensures StrField(AsDict(x), "title") == Ok(x.title)
    ensures StrField(AsDict(x), "item_type") == Ok(x.itemType)
  {
  }

  /** The watch-state fields of `asdict(x)` read back as `x`'s own values. */
  lemma AsDictWatchState(x: WatchedItem)
    ensures TimeField(AsDict(x), "watched_date") == Ok(x.watchedDate)
    ensures IntField(AsDict(x), "play_count") == Ok(x.playCount)
    ensures BoolField(AsDict(x), "is_fully_watched") == Ok(x.isFullyWatched)
  {
  }

  /** The playback fields of `asdict(x)` read back as `x`'s own values. */
  lemma AsDictPlayback(x: WatchedItem)
    ensures RealField(AsDict(x), "completion_percentage") == Ok(x.completionPercentage)
    ensures IntField(AsDict(x), "playback_position_ticks") == Ok(x.playbackPositionTicks)
    ensures IntField(AsDict(x), "runtime_ticks") == Ok(x.runtimeTicks)
  {
  }

  /** The optional external ids and rating of `asdict(x)` read back as `x`'s own values. */
  lemma AsDictExternalIds(x: WatchedItem)
    ensures OptStrField(AsDict(x), "imdb_id") == Ok(x.imdbId)
    ensures OptStrField(AsDict(x), "tmdb_id") == Ok(x.tmdbId)
    ensures OptStrField(AsDict(x), "tvdb_id") == Ok(x.tvdbId)
    ensures OptRealField(AsDict(x), "user_rating") == Ok(x.userRating)
  {
  }

  /** The optional series fields and metadata of `asdict(x)` read back as `x`'s own values. */
  lemma AsDictSeries(x: WatchedItem)
    ensures OptStrField(AsDict(x), "series_name") == Ok(x.seriesName)
    ensures OptIntField(AsDict(x), "season_number") == Ok(x.seasonNumber)
    ensures OptIntField(AsDict(x), "episode_number") == Ok(x.episodeNumber)
    ensures MetadataField(AsDict(x)) == Ok(x.rawMetadata)
  {
  }

  /** `cls(**asdict(x))` rebuilds `x`: every field is read back from its own key. */
  lemma ConstructAsDict(x: WatchedItem)
    ensures Construct(AsDict(x)) == Ok(x)
  {
    AsDictKeys(x);
    AsDictIdentity(x);
    AsDictWatchState(x);
    AsDictPlayback(x);
    AsDictExternalIds(x);
    AsDictSeries(x);
  }

  /** Setting a key twice keeps only the second value. */
  lemma UpdateTwice(m: Document, k: string, v1: Value, v2: Value)
    ensures m[k := v1][k := v2] == m[k := v2]
  {
  }

  /** Setting a key to the value it already has changes nothing. */
  lemma UpdateSame(m: Document, k: string)
    requires k in m
    ensures m[k := m[k]] == m
  {
  }

  /** Converting the date of `to_dict(x)` back gives `asdict(x)` again. */
  lemma ConvertToDict(x: WatchedItem)
    ensures ConvertWatchedDate(ToDict(x)) == Ok(AsDict(x))
  {
    var t := Time(x.watchedDate);
    IsoRoundTrip(x.watchedDate);
    assert AsDict(x)["watched_date"] == t;
    UpdateTwice(AsDict(x), "watched_date", Str(IsoFormat(x.watchedDate)), t);
    UpdateSame(AsDict(x), "watched_date");
  }

  /** `from_dict` undoes `to_dict`, field for field. */
  lemma RoundTrip(x: WatchedItem)
    ensures FromDict(ToDict(x)) == Ok(x)
  {
    ConvertToDict(x);
    ConstructAsDict(x);
  }
}
