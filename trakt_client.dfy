/** Payload building and reply handling of the Trakt client
    (emby_to_trakt/trakt_client.py). Every request is replaced by the reply it
    would get; the request itself is returned as the payload sent. */
module TraktClient {
  import opened Wrappers
  import opened Seqs
  import opened Documents
  import opened Http
  import opened Models

  /** The single provider id a history or rating entry carries (the `ids` dict).
      The tmdb and tvdb texts stand for the `int(...)` Trakt receives. */
  datatype TraktId = Imdb(imdb: string) | Tmdb(tmdb: string) | Tvdb(tvdb: string)

  /** One element of the `movies` or `episodes` list sent to Trakt. */
  datatype Entry = Entry(watchedAt: Timestamp, ids: TraktId, rating: Option<int>)

  /** The counts object of Trakt's answer (`added` or `deleted`). */
  datatype Counts = Counts(movies: int, episodes: int)

  /** A watched movie or show as the watched-movies or watched-shows listing returns it; `ids` is its
      `["movie"]["ids"]` or `["show"]["ids"]` dict. */
  datatype RemoteItem = RemoteItem(ids: Document)

  datatype Operation = SyncHistory | RemoveHistory | SyncRatings | WatchedMovies | WatchedShows

  /** `TraktError`: a rejected status, or a transport failure. */
  datatype TraktError = StatusError(op: Operation, status: int) | NetworkError(op: Operation)

  /** What a call did: its result, and the payload it sent (`None` when it made no request). */
  datatype Outcome<P> = Outcome(result: Result<Counts, TraktError>, sent: Option<P>)

  /** `_build_movie_data`: imdb when set, else tmdb when set, else nothing. */
  function BuildMovieData(item: WatchedItem): (r: Option<Entry>)
    ensures r.None? <==> !IsSet(item.imdbId) && !IsSet(item.tmdbId)
    ensures r.Some? ==> r.value.watchedAt == item.watchedDate && r.value.rating.None?
    ensures r.Some? ==>
      || (r.value.ids.Imdb? && IsSet(item.imdbId) && r.value.ids.imdb == item.imdbId.value)
      || (r.value.ids.Tmdb? && !IsSet(item.imdbId) && IsSet(item.tmdbId) && r.value.ids.tmdb == item.tmdbId.value)
  {
    if IsSet(item.imdbId) then Some(Entry(item.watchedDate, Imdb(item.imdbId.value), None))
    else if IsSet(item.tmdbId) then Some(Entry(item.watchedDate, Tmdb(item.tmdbId.value), None))
    else None
  }

  /** `_build_episode_data`: tvdb when set, else imdb when set; tmdb is never used. */
  function BuildEpisodeData(item: WatchedItem): (r: Option<Entry>)
    ensures r.None? <==> !IsSet(item.tvdbId) && !IsSet(item.imdbId)
    ensures r.Some? ==> r.value.watchedAt == item.watchedDate && r.value.rating.None?
    ensures r.Some? ==>
      || (r.value.ids.Tvdb? && IsSet(item.tvdbId) && r.value.ids.tvdb == item.tvdbId.value)
      || (r.value.ids.Imdb? && !IsSet(item.tvdbId) && IsSet(item.imdbId) && r.value.ids.imdb == item.imdbId.value)
  {
    if IsSet(item.tvdbId) then Some(Entry(item.watchedDate, Tvdb(item.tvdbId.value), None))
    else if IsSet(item.imdbId) then Some(Entry(item.watchedDate, Imdb(item.imdbId.value), None))
    else None
  }

  /** What `sync_history` appends to `movies` for one item. */
  function MovieHistory(item: WatchedItem): Option<Entry> {
    if item.itemType == "movie" then BuildMovieData(item) else None
  }

  /** What `sync_history` appends to `episodes` for one item. */
  function EpisodeHistory(item: WatchedItem): Option<Entry> {
    if item.itemType == "episode" then BuildEpisodeData(item) else None
  }

  /** `int(r)`: truncation toward zero. */
  function Truncate(r: real): (n: int)
    ensures 0.0 <= r ==> n as real <= r < n as real + 1.0
    ensures r < 0.0 ==> n as real - 1.0 < r <= n as real
  {
    if r >= 0.0 then r.Floor else -((-r).Floor)
  }

  /** `min(10, max(1, int(r)))`: Trakt's 1..10 scale. */
  function ClampRating(r: real): (n: int)
    ensures 1 <= n <= 10
    ensures 1.0 <= r < 11.0 ==> n as real <= r < n as real + 1.0
    ensures r < 1.0 ==> n == 1
    ensures r >= 10.0 ==> n == 10
  {
    var t := Truncate(r);
    if t < 1 then 1 else if t > 10 then 10 else t
  }

  /** What `sync_ratings` appends to `movies` for one item: the history entry with a rating. */
  function MovieRating(item: WatchedItem): Option<Entry> {
    if item.userRating.None? then None
    else match MovieHistory(item)
      case Some(e) => Some(e.(rating := Some(ClampRating(item.userRating.value))))
      case None => None
  }

  /** What `sync_ratings` appends to `episodes` for one item. */
  function EpisodeRating(item: WatchedItem): Option<Entry> {
    if item.userRating.None? then None
    else match EpisodeHistory(item)
      case Some(e) => Some(e.(rating := Some(ClampRating(item.userRating.value))))
      case None => None
  }

  /** The POST body of `sync_history`/`sync_ratings`: a key per non-empty list. */
  function Payload(movies: seq<Entry>, episodes: seq<Entry>): (p: map<string, seq<Entry>>)
    ensures p == map[] <==> movies == [] && episodes == []
    ensures ("movies" in p <==> movies != []) && ("movies" in p ==> p["movies"] == movies)
    ensures ("episodes" in p <==> episodes != []) && ("episodes" in p ==> p["episodes"] == episodes)
  {
    var withMovies: map<string, seq<Entry>> := if movies != [] then map["movies" := movies] else map[];
    var p := if episodes != [] then withMovies["episodes" := episodes] else withMovies;
    assert movies != [] ==> "movies" in p;
    assert episodes != [] ==> "episodes" in p;
    p
  }

  /** A POST reply: only 200 and 201 are success. */
  function Posted(op: Operation, reply: Reply<Counts>): (r: Result<Counts, TraktError>)
    ensures r.Ok? <==> reply.Reply? && (reply.status == 200 || reply.status == 201)
    ensures r.Ok? ==> r.value == reply.body
    ensures reply.NetworkFailure? ==> r == Err(NetworkError(op))
    ensures reply.Reply? && r.Err? ==> r == Err(StatusError(op, reply.status))
  {
    match reply
    case NetworkFailure => Err(NetworkError(op))
    case Reply(status, body) =>
      if status == 200 || status == 201 then Ok(body) else Err(StatusError(op, status))
  }

  /** A GET reply: only 200 is success. */
  function Fetched(op: Operation, reply: Reply<seq<RemoteItem>>): (r: Result<seq<RemoteItem>, TraktError>)
    ensures r.Ok? <==> reply.Reply? && reply.status == 200
    ensures r.Ok? ==> r.value == reply.body
    ensures reply.Reply? && r.Err? ==> r == Err(StatusError(op, reply.status))
  {
    match reply
    case NetworkFailure => Err(NetworkError(op))
    case Reply(status, body) => if status == 200 then Ok(body) else Err(StatusError(op, status))
  }

  /** The loop of `sync_history`: movies and episodes with a usable id, in input order. */
  method BuildHistoryLists(items: seq<WatchedItem>) returns (movies: seq<Entry>, episodes: seq<Entry>)
    ensures movies == FilterMap(items, MovieHistory)
    ensures episodes == FilterMap(items, EpisodeHistory)
  {
    movies, episodes := [], [];
    for i := 0 to |items|
      invariant movies == FilterMap(items[..i], MovieHistory)
      invariant episodes == FilterMap(items[..i], EpisodeHistory)
    {
      var item := items[i];
      assert items[..i + 1][..i] == items[..i];
      if item.itemType == "movie" {
        var movieData := BuildMovieData(item);
        if movieData.Some? {
          movies := movies + [movieData.value];
        }
      } else if item.itemType == "episode" {
        var episodeData := BuildEpisodeData(item);
        if episodeData.Some? {
          episodes := episodes + [episodeData.value];
        }
      }
    }
    assert items[..|items|] == items;
  }

  /** The loop of `sync_ratings`: rated movies and episodes with a usable id, in input order. */
  method BuildRatingLists(items: seq<WatchedItem>) returns (movies: seq<Entry>, episodes: seq<Entry>)
    ensures movies == FilterMap(items, MovieRating)
    ensures episodes == FilterMap(items, EpisodeRating)
  {
    movies, episodes := [], [];
    for i := 0 to |items|
      invariant movies == FilterMap(items[..i], MovieRating)
      invariant episodes == FilterMap(items[..i], EpisodeRating)
    {
      var item := items[i];
      assert items[..i + 1][..i] == items[..i];
      if item.userRating.None? {
        continue;
      }
      var rating := ClampRating(item.userRating.value);
      if item.itemType == "movie" {
        var movieData := BuildMovieData(item);
        if movieData.Some? {
          movies := movies + [movieData.value.(rating := Some(rating))];
        }
      } else if item.itemType == "episode" {
        var episodeData := BuildEpisodeData(item);
        if episodeData.Some? {
          episodes := episodes + [episodeData.value.(rating := Some(rating))];
        }
      }
    }
    assert items[..|items|] == items;
  }

  /** `sync_history`: no request when nothing has a usable id, else one POST whose
      reply decides the result. */
  method SyncHistoryCall(items: seq<WatchedItem>, reply: Reply<Counts>)
    returns (outcome: Outcome<map<string, seq<Entry>>>)
    ensures var movies, episodes := FilterMap(items, MovieHistory), FilterMap(items, EpisodeHistory);
      && (outcome.sent.None? <==> movies == [] && episodes == [])
      && (outcome.sent.None? ==> outcome.result == Ok(Counts(0, 0)))
      && (outcome.sent.Some? ==>
            outcome.sent.value == Payload(movies, episodes) && outcome.result == Posted(SyncHistory, reply))
  {
    var movies, episodes := BuildHistoryLists(items);
    var payload := Payload(movies, episodes);
    if payload == map[] {
      return Outcome(Ok(Counts(0, 0)), None);
    }
    outcome := Outcome(Posted(SyncHistory, reply), Some(payload));
  }

  /** `sync_ratings`: like `sync_history`, over rated items only. */
  method SyncRatingsCall(items: seq<WatchedItem>, reply: Reply<Counts>)
    returns (outcome: Outcome<map<string, seq<Entry>>>)
    ensures var movies, episodes := FilterMap(items, MovieRating), FilterMap(items, EpisodeRating);
      && (outcome.sent.None? <==> movies == [] && episodes == [])
      && (outcome.sent.None? ==> outcome.result == Ok(Counts(0, 0)))
      && (outcome.sent.Some? ==>
            outcome.sent.value == Payload(movies, episodes) && outcome.result == Posted(SyncRatings, reply))
  {
    var movies, episodes := BuildRatingLists(items);
    if movies == [] && episodes == [] {
      return Outcome(Ok(Counts(0, 0)), None);
    }
    outcome := Outcome(Posted(SyncRatings, reply), Some(Payload(movies, episodes)));
  }

  /** `{"ids": x["movie"]["ids"]}` for each remote item. */
  function IdsOnly(items: seq<RemoteItem>): (r: seq<Document>)
    ensures |r| == |items| && forall i :: 0 <= i < |items| ==> r[i] == items[i].ids
  {
    seq(|items|, i requires 0 <= i < |items| => items[i].ids)
  }

  /** Python's truth value of an optional list argument. */
  predicate NonEmpty<T>(o: Option<seq<T>>) {
    o.Some? && o.value != []
  }

  /** `remove_from_history`: a key per non-empty argument; no request when both are
      empty or `None`. */
  function RemoveFromHistory(movies: Option<seq<RemoteItem>>, shows: Option<seq<RemoteItem>>, reply: Reply<Counts>)
    : (r: Outcome<map<string, seq<Document>>>)
    ensures r.sent.None? <==> !NonEmpty(movies) && !NonEmpty(shows)
    ensures r.sent.None? ==> r.result == Ok(Counts(0, 0))
    ensures r.sent.Some? ==> r.result == Posted(RemoveHistory, reply)
    ensures r.sent.Some? ==>
      && ("movies" in r.sent.value <==> NonEmpty(movies))
      && ("shows" in r.sent.value <==> NonEmpty(shows))
      && r.sent.value.Keys <= {"movies", "shows"}
    ensures r.sent.Some? && NonEmpty(movies) ==> r.sent.value["movies"] == IdsOnly(movies.value)
    ensures r.sent.Some? && NonEmpty(shows) ==> r.sent.value["shows"] == IdsOnly(shows.value)
  {
    var withMovies: map<string, seq<Document>> :=
      if NonEmpty(movies) then map["movies" := IdsOnly(movies.value)] else map[];
    var payload := if NonEmpty(shows) then withMovies["shows" := IdsOnly(shows.value)] else withMovies;
    assert NonEmpty(movies) ==> "movies" in payload;
    assert NonEmpty(shows) ==> "shows" in payload;
    if payload == map[] then Outcome(Ok(Counts(0, 0)), None)
    else Outcome(Posted(RemoveHistory, reply), Some(payload))
  }

  /** `clear_all_history`: fetch watched movies, then shows (each GET must answer 200);
      no removal request when both are empty, else `remove_from_history` on both. */
  function ClearAllHistory(moviesReply: Reply<seq<RemoteItem>>, showsReply: Reply<seq<RemoteItem>>, removeReply: Reply<Counts>)
    : (r: Outcome<map<string, seq<Document>>>)
    ensures Fetched(WatchedMovies, moviesReply).Err? ==>
      r == Outcome(Err(Fetched(WatchedMovies, moviesReply).error), None)
    ensures Fetched(WatchedMovies, moviesReply).Ok? && Fetched(WatchedShows, showsReply).Err? ==>
      r == Outcome(Err(Fetched(WatchedShows, showsReply).error), None)
    ensures r.sent.None? && r.result.Ok? ==> r.result.value == Counts(0, 0)
    ensures r.sent.Some? <==>
      && moviesReply.Reply? && moviesReply.status == 200
      && showsReply.Reply? && showsReply.status == 200
      && (moviesReply.body != [] || showsReply.body != [])
    ensures r.sent.Some? ==> r == RemoveFromHistory(Some(moviesReply.body), Some(showsReply.body), removeReply)
  {
    match Fetched(WatchedMovies, moviesReply)
    case Err(e) => Outcome(Err(e), None)
    case Ok(movies) =>
      match Fetched(WatchedShows, showsReply)
      case Err(e) => Outcome(Err(e), None)
      case Ok(shows) =>
        if movies == [] && shows == [] then Outcome(Ok(Counts(0, 0)), None)
        else RemoveFromHistory(Some(movies), Some(shows), removeReply)
  }

  /** The number of items of one kind. */
  function CountKind(items: seq<WatchedItem>, kind: string): nat {
    if items == [] then 0
    else CountKind(items[..|items| - 1], kind) + (if items[|items| - 1].itemType == kind then 1 else 0)
  }

  /** The history lists hold at most one entry per movie or episode item. */
  lemma {:induction false} HistoryListSizes(items: seq<WatchedItem>)
    ensures |FilterMap(items, MovieHistory)| <= CountKind(items, "movie")
    ensures |FilterMap(items, EpisodeHistory)| <= CountKind(items, "episode")
  {
    if items != [] {
      HistoryListSizes(items[..|items| - 1]);
    }
  }

  /** The history lists follow the input order: the entries of a concatenation are
      those of the first part followed by those of the second. */
  lemma HistoryListsKeepOrder(front: seq<WatchedItem>, back: seq<WatchedItem>)
    ensures FilterMap(front + back, MovieHistory) == FilterMap(front, MovieHistory) + FilterMap(back, MovieHistory)
    ensures FilterMap(front + back, EpisodeHistory) == FilterMap(front, EpisodeHistory) + FilterMap(back, EpisodeHistory)
  {
    FilterMapAppend(front, back, MovieHistory);
    FilterMapAppend(front, back, EpisodeHistory);
  }

  /** Every movie entry comes from a movie item with an imdb id, or a tmdb id when no
      imdb id is set; and every such item contributes its entry. */
  lemma MovieEntriesFromItems(items: seq<WatchedItem>, e: Entry)
    ensures e in FilterMap(items, MovieHistory) <==>
      exists i :: 0 <= i < |items| && items[i].itemType == "movie" && BuildMovieData(items[i]) == Some(e)
  {
    FilterMapMember(items, MovieHistory, e);
  }

  /** Every episode entry comes from an episode item by the tvdb-then-imdb rule. */
  lemma EpisodeEntriesFromItems(items: seq<WatchedItem>, e: Entry)
    ensures e in FilterMap(items, EpisodeHistory) <==>
      exists i :: 0 <= i < |items| && items[i].itemType == "episode" && BuildEpisodeData(items[i]) == Some(e)
  {
    FilterMapMember(items, EpisodeHistory, e);
  }

  /** When no movie has an imdb or tmdb id, no episode a tvdb or imdb id, and other
      kinds are ignored, `sync_history` sends nothing and reports zero. */
  lemma NoUsableIdSendsNothing(items: seq<WatchedItem>)
    requires forall i :: 0 <= i < |items| ==>
      && (items[i].itemType == "movie" ==> !IsSet(items[i].imdbId) && !IsSet(items[i].tmdbId))
      && (items[i].itemType == "episode" ==> !IsSet(items[i].tvdbId) && !IsSet(items[i].imdbId))
    ensures FilterMap(items, MovieHistory) == [] && FilterMap(items, EpisodeHistory) == []
  {
    FilterMapNone(items, MovieHistory);
    FilterMapNone(items, EpisodeHistory);
  }

  /** Every rating sent lies in 1..10 and is the clamped rating of a rated item of that kind. */
  lemma RatingsInRange(items: seq<WatchedItem>, e: Entry)
    ensures e in FilterMap(items, MovieRating) ==>
      exists i :: 0 <= i < |items| && items[i].itemType == "movie" && items[i].userRating.Some?
        && e.rating == Some(ClampRating(items[i].userRating.value)) && 1 <= e.rating.value <= 10
    ensures e in FilterMap(items, EpisodeRating) ==>
      exists i :: 0 <= i < |items| && items[i].itemType == "episode" && items[i].userRating.Some?
        && e.rating == Some(ClampRating(items[i].userRating.value)) && 1 <= e.rating.value <= 10
  {
    FilterMapMember(items, MovieRating, e);
    FilterMapMember(items, EpisodeRating, e);
  }
}
