/** The Emby client: item normalisation, the two-filter fetch merged first-seen-wins
    by id, status classification and the session fields
    (emby_to_trakt/emby_client.py). */
module EmbyClient {
  import opened Wrappers
  import opened Documents
  import opened Http
  import opened Models

  /** The `UserData` object of a server item; `None` is a key the server left out. */
  datatype UserData = UserData(
    lastPlayedDate: Option<Timestamp>,
    playbackPositionTicks: Option<int>,
    played: Option<bool>,
    playCount: Option<int>,
    rating: Option<real>)

  /** One element of the server's `Items` list: the keys `_parse_item` reads, and the
      whole object as it arrived (kept as `raw_metadata`). */
  datatype RawItem = RawItem(
    id: Option<string>,
    name: Option<string>,
    itemType: Option<string>,
    runTimeTicks: Option<int>,
    userData: Option<UserData>,
    providerIds: map<string, string>,
    seriesName: Option<string>,
    parentIndexNumber: Option<int>,
    indexNumber: Option<int>,
    document: Document)

  /** `EmbyAuthError`, `EmbyConnectionError` (with the status, when there was one) and
      the `ValueError` of an unknown content type. */
  datatype EmbyError = AuthError | ConnectionError(status: Option<int>) | InvalidContentType(contentType: string)

  /** The query parameters of one `/Users/{user}/Items` request that can vary. */
  datatype Query = Query(userId: Option<string>, includeItemTypes: string, filter: string, minDateLastSaved: Option<Timestamp>)

  /** What a successful login returns. */
  datatype Session = Session(accessToken: string, userId: string, deviceId: string)

  /** The body of a successful login reply: `AccessToken` and `User.Id`. */
  datatype LoginBody = LoginBody(accessToken: string, userId: string)

  const ClientName: string := "emby-sync-cli"
  const ClientVersion: string := "0.1.0"

  /** Status handling shared by the login and the item queries: 200 passes, 401 is an
      authentication error, anything else (or no answer) a connection error. */
  function CheckStatus<B>(reply: Reply<B>): (r: Result<B, EmbyError>)
    ensures r.Ok? <==> reply.Reply? && reply.status == 200
    ensures r.Ok? ==> r.value == reply.body
    ensures r == Err(AuthError) <==> reply.Reply? && reply.status == 401
    ensures reply.Reply? && reply.status != 200 && reply.status != 401 ==> r == Err(ConnectionError(Some(reply.status)))
    ensures reply.NetworkFailure? ==> r == Err(ConnectionError(None))
  {
    match reply
    case NetworkFailure => Err(ConnectionError(None))
    case Reply(status, body) =>
      if status == 401 then Err(AuthError)
      else if status != 200 then Err(ConnectionError(Some(status)))
      else Ok(body)
  }

  /** `server_url.rstrip("/")`: every trailing slash removed, nothing else. */
  function TrimTrailingSlashes(s: string): (r: string)
    ensures r <= s
    ensures r == [] || r[|r| - 1] != '/'
    ensures forall i :: |r| <= i < |s| ==> s[i] == '/'
  {
    if s != [] && s[|s| - 1] == '/' then TrimTrailingSlashes(s[..|s| - 1]) else s
  }

  function LowerChar(c: char): char {
    if 'A' <= c <= 'Z' then (c as int - 'A' as int + 'a' as int) as char else c
  }

  /** `str.lower()` on ASCII letters. */
  function Lower(s: string): (r: string)
    ensures |r| == |s| && forall i :: 0 <= i < |s| ==> r[i] == LowerChar(s[i])
  {
    seq(|s|, i requires 0 <= i < |s| => LowerChar(s[i]))
  }

  /** The completion percentage, exact (the code rounds it to two places): position
      over runtime times 100 when the runtime is positive, else 100 or 0 by the played
      flag. The code does not clamp it. */
  function Completion(runtime: int, position: int, played: bool): (c: real)
    ensures runtime > 0 ==> c * runtime as real == position as real * 100.0
    ensures runtime <= 0 ==> c == if played then 100.0 else 0.0
  {
    if runtime > 0 then (position as real / runtime as real) * 100.0
    else if played then 100.0 else 0.0
  }

  /** With a position inside the runtime the percentage lies in 0..100. */
  lemma CompletionBounds(runtime: int, position: int, played: bool)
    requires runtime > 0 && 0 <= position <= runtime
    ensures 0.0 <= Completion(runtime, position, played) <= 100.0
  {
    var c := Completion(runtime, position, played);
    assert c * runtime as real <= runtime as real * 100.0;
  }

  /** A position past the runtime gives a percentage over 100: nothing clamps it. */
  lemma CompletionNotClamped(runtime: int, position: int, played: bool)
    requires 0 < runtime < position
    ensures Completion(runtime, position, played) > 100.0
  {
    var c := Completion(runtime, position, played);
    assert c * runtime as real > runtime as real * 100.0;
  }

  const NoUserData: UserData := UserData(None, None, None, None, None)

  function ProviderId(ids: map<string, string>, key: string): Option<string> {
    if key in ids then Some(ids[key]) else None
  }

  /** `_parse_item`: `None` unless the lower-cased type is movie or episode; episode
      fields only for episodes; the clock reading `now` when nothing was played. */
  function ParseItem(raw: RawItem, now: Timestamp): (r: Option<WatchedItem>)
    ensures var kind := Lower(raw.itemType.GetOr(""));
      r.Some? <==> kind == "movie" || kind == "episode"
    ensures r.Some? ==> r.value.itemType == Lower(raw.itemType.GetOr(""))
    ensures r.Some? && r.value.itemType != "episode" ==>
      r.value.seriesName.None? && r.value.seasonNumber.None? && r.value.episodeNumber.None?
    ensures r.Some? && r.value.itemType == "episode" ==>
      && r.value.seriesName == raw.seriesName
      && r.value.seasonNumber == raw.parentIndexNumber
      && r.value.episodeNumber == raw.indexNumber
    ensures r.Some? ==>
      var userData := raw.userData.GetOr(NoUserData);
      && r.value.embyId == raw.id.GetOr("")
      && r.value.title == raw.name.GetOr("")
      && r.value.watchedDate == userData.lastPlayedDate.GetOr(now)
      && r.value.playCount == userData.playCount.GetOr(0)
      && r.value.isFullyWatched == userData.played.GetOr(false)
      && r.value.runtimeTicks == raw.runTimeTicks.GetOr(0)
      && r.value.playbackPositionTicks == userData.playbackPositionTicks.GetOr(0)
      && r.value.completionPercentage == Completion(r.value.runtimeTicks, r.value.playbackPositionTicks, r.value.isFullyWatched)
      && r.value.imdbId == ProviderId(raw.providerIds, "Imdb")
      && r.value.tmdbId == ProviderId(raw.providerIds, "Tmdb")
      && r.value.tvdbId == ProviderId(raw.providerIds, "Tvdb")
      && r.value.userRating == userData.rating
      && r.value.rawMetadata == raw.document
  {
    var userData := raw.userData.GetOr(NoUserData);
    var watchedDate := if userData.lastPlayedDate.Some? then userData.lastPlayedDate.value else now;
    var runtime := raw.runTimeTicks.GetOr(0);
    var position := userData.playbackPositionTicks.GetOr(0);
    var played := userData.played.GetOr(false);
    var completion := Completion(runtime, position, played);
    var kind := Lower(raw.itemType.GetOr(""));
    if kind != "movie" && kind != "episode" then None
    else
      var episode := kind == "episode";
      Some(WatchedItem(
        raw.id.GetOr(""), raw.name.GetOr(""), kind, watchedDate,
        userData.playCount.GetOr(0), played, completion, position, runtime,
        ProviderId(raw.providerIds, "Imdb"), ProviderId(raw.providerIds, "Tmdb"),
        ProviderId(raw.providerIds, "Tvdb"), userData.rating,
        if episode then raw.seriesName else None,
        if episode then raw.parentIndexNumber else None,
        if episode then raw.indexNumber else None,
        raw.document))
  }

  /** The records `_parse_item` makes of a list of server items, in order. */
  function ParseAll(raws: seq<RawItem>, now: Timestamp): seq<WatchedItem> {
    if raws == [] then []
    else
      var last := ParseItem(raws[|raws| - 1], now);
      ParseAll(raws[..|raws| - 1], now) + (if last.Some? then [last.value] else [])
  }

  /** The ids of a list of records. */
  function IdsOf(xs: seq<WatchedItem>): set<string> {
    if xs == [] then {} else IdsOf(xs[..|xs| - 1]) + {xs[|xs| - 1].embyId}
  }

  lemma {:induction false} IdsOfMember(xs: seq<WatchedItem>, id: string)
    ensures id in IdsOf(xs) <==> exists i :: 0 <= i < |xs| && xs[i].embyId == id
  {
    if xs != [] {
      var init := xs[..|xs| - 1];
      IdsOfMember(init, id);
      if exists i :: 0 <= i < |init| && init[i].embyId == id {
        var i :| 0 <= i < |init| && init[i].embyId == id;
        assert xs[i] == init[i];
      }
    }
  }

  /** The insertion-ordered dict of `get_watched_items`, as the list of its values: a
      record is added when no record with its id was added before. */
  function Merge(xs: seq<WatchedItem>): (m: seq<WatchedItem>)
    ensures m == [] <==> xs == []
  {
    if xs == [] then []
    else
      var merged := Merge(xs[..|xs| - 1]);
      var x := xs[|xs| - 1];
      if x.embyId in IdsOf(merged) then merged else merged + [x]
  }

  /** The merged records have pairwise distinct ids, and the same ids as the input. */
  lemma {:induction false} MergeUnique(xs: seq<WatchedItem>)
    ensures forall i, j :: 0 <= i < j < |Merge(xs)| ==> Merge(xs)[i].embyId != Merge(xs)[j].embyId
    ensures IdsOf(Merge(xs)) == IdsOf(xs)
  {
    if xs != [] {
      var init := xs[..|xs| - 1];
      var x := xs[|xs| - 1];
      MergeUnique(init);
      var merged := Merge(init);
      if x.embyId !in IdsOf(merged) {
        forall i | 0 <= i < |merged|
          ensures merged[i].embyId != x.embyId
        {
          IdsOfMember(merged, merged[i].embyId);
        }
        assert (merged + [x])[..|merged|] == merged;
      }
    }
  }

  /** A record whose id is not among the merged ids is the first of its id. */
  lemma {:induction false} FirstOfItsId(xs: seq<WatchedItem>)
    requires xs != [] && xs[|xs| - 1].embyId !in IdsOf(Merge(xs[..|xs| - 1]))
    ensures forall j :: 0 <= j < |xs| - 1 ==> xs[j].embyId != xs[|xs| - 1].embyId
  {
    var init := xs[..|xs| - 1];
    MergeUnique(init);
    forall j | 0 <= j < |init|
      ensures xs[j].embyId != xs[|xs| - 1].embyId
    {
      IdsOfMember(init, init[j].embyId);
    }
  }

  /** Merging keeps, in input order, exactly the first record seen for each id: the
      k-th merged record is the input record at `idx[k]`, the positions increase, and
      no earlier input record has the same id. */
  lemma {:induction false} MergeFirstSeen(xs: seq<WatchedItem>) returns (idx: seq<nat>)
    ensures |idx| == |Merge(xs)|
    ensures forall k :: 0 <= k < |idx| ==> idx[k] < |xs| && Merge(xs)[k] == xs[idx[k]]
    ensures forall k, l :: 0 <= k < l < |idx| ==> idx[k] < idx[l]
    ensures forall k, j :: 0 <= k < |idx| && 0 <= j < idx[k] ==> xs[j].embyId != xs[idx[k]].embyId
  {
    if xs == [] {
      idx := [];
    } else {
      var n := |xs| - 1;
      var init := xs[..n];
      var prev := MergeFirstSeen(init);
      if xs[n].embyId in IdsOf(Merge(init)) {
        assert Merge(xs) == Merge(init);
        idx := prev;
      } else {
        assert Merge(xs) == Merge(init) + [xs[n]];
        FirstOfItsId(xs);
        idx := prev + [n];
      }
      forall k | 0 <= k < |prev|
        ensures idx[k] == prev[k] && xs[prev[k]] == init[prev[k]]
      {
      }
      forall k, j | 0 <= k < |idx| && 0 <= j < idx[k]
        ensures xs[j].embyId != xs[idx[k]].embyId
      {
        if k < |prev| {
          assert xs[j] == init[j];
        }
      }
    }
  }

  /** `content_type` "movies" or "episodes" selects the item type; anything else is a
      `ValueError`. */
  function ItemTypes(contentType: string): (r: Result<string, EmbyError>)
    ensures contentType == "movies" <==> r == Ok("Movie")
    ensures contentType == "episodes" <==> r == Ok("Episode")
    ensures r.Err? <==> contentType != "movies" && contentType != "episodes"
    ensures r.Err? ==> r.error == InvalidContentType(contentType)
  {
    if contentType == "movies" then Ok("Movie")
    else if contentType == "episodes" then Ok("Episode")
    else Err(InvalidContentType(contentType))
  }

  /** The watched-state filters queried: played, and resumable when partial items are wanted. */
  function Filters(includePartial: bool): (fs: seq<string>)
    ensures |fs| >= 1 && fs[0] == "IsPlayed"
    ensures "IsResumable" in fs <==> includePartial
    ensures |fs| == if includePartial then 2 else 1
  {
    if includePartial then ["IsPlayed", "IsResumable"] else ["IsPlayed"]
  }

  /** One query per filter, in filter order, each carrying the item type and `since`. */
  function Queries(userId: Option<string>, itemTypes: string, filters: seq<string>, since: Option<Timestamp>): (qs: seq<Query>)
    ensures |qs| == |filters|
    ensures forall i :: 0 <= i < |qs| ==> qs[i] == Query(userId, itemTypes, filters[i], since)
  {
    if filters == [] then []
    else Queries(userId, itemTypes, filters[..|filters| - 1], since) + [Query(userId, itemTypes, filters[|filters| - 1], since)]
  }

  /** The server items of the queries, in order, or the first failing reply's error. */
  function Collect(queries: seq<Query>, server: Query -> Reply<seq<RawItem>>): Result<seq<RawItem>, EmbyError> {
    if queries == [] then Ok([])
    else
      var raws :- Collect(queries[..|queries| - 1], server);
      var more :- CheckStatus(server(queries[|queries| - 1]));
      Ok(raws + more)
  }

  /** A failing reply ends the collection: later queries do not change the error. */
  lemma {:induction false} CollectErrExtends(qs: seq<Query>, more: seq<Query>, server: Query -> Reply<seq<RawItem>>)
    requires Collect(qs, server).Err?
    ensures Collect(qs + more, server) == Collect(qs, server)
    decreases |more|
  {
    if more != [] {
      var init := more[..|more| - 1];
      CollectErrExtends(qs, init, server);
      assert (qs + more)[..|qs + more| - 1] == qs + init;
    } else {
      assert qs + more == qs;
    }
  }

  lemma CollectSnoc(qs: seq<Query>, q: Query, server: Query -> Reply<seq<RawItem>>)
    ensures Collect(qs + [q], server) ==
      match Collect(qs, server)
      case Err(e) => Err(e)
      case Ok(raws) =>
        match CheckStatus(server(q))
        case Err(e) => Err(e)
        case Ok(more) => Ok(raws + more)
  {
    assert (qs + [q])[..|qs|] == qs;
  }

  lemma QueriesSnoc(userId: Option<string>, itemTypes: string, filters: seq<string>, f: nat, since: Option<Timestamp>)
    requires f < |filters|
    ensures Queries(userId, itemTypes, filters[..f + 1], since) ==
      Queries(userId, itemTypes, filters[..f], since) + [Query(userId, itemTypes, filters[f], since)]
  {
    assert filters[..f + 1][..f] == filters[..f];
  }

  /** A failing reply to the query of filter `f` is the error of the whole collection. */
  lemma CollectStops(userId: Option<string>, itemTypes: string, filters: seq<string>, f: nat, since: Option<Timestamp>,
                     server: Query -> Reply<seq<RawItem>>, now: Timestamp)
    requires f < |filters|
    requires Collect(Queries(userId, itemTypes, filters[..f + 1], since), server).Err?
    ensures Queries(userId, itemTypes, filters[..f + 1], since) <= Queries(userId, itemTypes, filters, since)
    ensures CollectMerged(Queries(userId, itemTypes, filters, since), server, now).Err?
    ensures CollectMerged(Queries(userId, itemTypes, filters, since), server, now).error
         == Collect(Queries(userId, itemTypes, filters[..f + 1], since), server).error
  {
    var all := Queries(userId, itemTypes, filters, since);
    var queries := Queries(userId, itemTypes, filters[..f + 1], since);
    assert queries == all[..f + 1];
    CollectErrExtends(queries, all[f + 1..], server);
    assert queries + all[f + 1..] == all;
  }

  /** The merged records of the server items of the queries, or the first failing reply's error. */
  function CollectMerged(queries: seq<Query>, server: Query -> Reply<seq<RawItem>>, now: Timestamp): Result<seq<WatchedItem>, EmbyError> {
    var raws :- Collect(queries, server);
    Ok(Merge(ParseAll(raws, now)))
  }

  /** What `get_watched_items` returns for a given server. */
  function WatchedItems(userId: Option<string>, contentType: string, since: Option<Timestamp>, includePartial: bool,
                        server: Query -> Reply<seq<RawItem>>, now: Timestamp): Result<seq<WatchedItem>, EmbyError>
  {
    var itemTypes :- ItemTypes(contentType);
    CollectMerged(Queries(userId, itemTypes, Filters(includePartial), since), server, now)
  }

  /** The records `get_watched_items` returns have distinct ids and are the first
      record seen for each id among the parsed items, in first-seen order. */
  lemma WatchedItemsMerged(userId: Option<string>, contentType: string, since: Option<Timestamp>, includePartial: bool,
                           server: Query -> Reply<seq<RawItem>>, now: Timestamp)
    ensures match WatchedItems(userId, contentType, since, includePartial, server, now)
      case Err(_) => true
      case Ok(items) =>
        && ItemTypes(contentType).Ok?
        && var raws := Collect(Queries(userId, ItemTypes(contentType).value, Filters(includePartial), since), server);
        && raws.Ok?
        && items == Merge(ParseAll(raws.value, now))
        && (forall i, j :: 0 <= i < j < |items| ==> items[i].embyId != items[j].embyId)
        && IdsOf(items) == IdsOf(ParseAll(raws.value, now))
  {
    match WatchedItems(userId, contentType, since, includePartial, server, now)
    case Err(_) =>
    case Ok(items) =>
      var raws := Collect(Queries(userId, ItemTypes(contentType).value, Filters(includePartial), since), server);
      MergeUnique(ParseAll(raws.value, now));
  }

  lemma ParseAllSnoc(raws: seq<RawItem>, raw: RawItem, now: Timestamp)
    ensures ParseAll(raws + [raw], now) ==
      ParseAll(raws, now) + (if ParseItem(raw, now).Some? then [ParseItem(raw, now).value] else [])
  {
    assert (raws + [raw])[..|raws|] == raws;
  }

  lemma MergeSnoc(xs: seq<WatchedItem>, x: WatchedItem)
    ensures Merge(xs + [x]) == if x.embyId in IdsOf(Merge(xs)) then Merge(xs) else Merge(xs) + [x]
  {
    assert (xs + [x])[..|xs|] == xs;
  }

  lemma IdsOfSnoc(xs: seq<WatchedItem>, x: WatchedItem)
    ensures IdsOf(xs + [x]) == IdsOf(xs) + {x.embyId}
  {
    assert (xs + [x])[..|xs|] == xs;
  }

  /** One step of the inner loop: the next server item joins the merge when it parses
      and its id is new. */
  lemma AddParsedStep(before: seq<RawItem>, batch: seq<RawItem>, j: nat, now: Timestamp)
    requires j < |batch|
    ensures var merged := Merge(ParseAll(before + batch[..j], now));
      var item := ParseItem(batch[j], now);
      Merge(ParseAll(before + batch[..j + 1], now))
        == if item.Some? && item.value.embyId !in IdsOf(merged) then merged + [item.value] else merged
  {
    var parsed := ParseAll(before + batch[..j], now);
    assert before + batch[..j + 1] == (before + batch[..j]) + [batch[j]];
    ParseAllSnoc(before + batch[..j], batch[j], now);
    var item := ParseItem(batch[j], now);
    if item.Some? {
      MergeSnoc(parsed, item.value);
    } else {
      assert parsed + [] == parsed;
    }
  }

  /** The inner loop of `get_watched_items`: parse each server item of one reply and
      insert it unless a record with its id is already in the merge. */
  method AddParsed(merged: seq<WatchedItem>, seen: set<string>, batch: seq<RawItem>, now: Timestamp, ghost before: seq<RawItem>)
    returns (merged': seq<WatchedItem>, seen': set<string>)
    requires merged == Merge(ParseAll(before, now)) && seen == IdsOf(merged)
    ensures merged' == Merge(ParseAll(before + batch, now)) && seen' == IdsOf(merged')
  {
    merged', seen' := merged, seen;
    assert before + batch[..0] == before;
    for j := 0 to |batch|
      invariant merged' == Merge(ParseAll(before + batch[..j], now))
      invariant seen' == IdsOf(merged')
    {
      var item := ParseItem(batch[j], now);
      AddParsedStep(before, batch, j, now);
      if item.Some? && item.value.embyId !in seen' {
        IdsOfSnoc(merged', item.value);
        merged' := merged' + [item.value];
        seen' := seen' + {item.value.embyId};
      }
    }
    assert batch[..|batch|] == batch;
  }

  class EmbyClient {
    var serverUrl: string
    var accessToken: Option<string>
    var userId: Option<string>
    var deviceId: string

    /** `__init__`; `generatedDeviceId` is the `uuid4()` used when no device id is set. */
    constructor (serverUrl: string, accessToken: Option<string>, userId: Option<string>,
                 deviceId: Option<string>, generatedDeviceId: string)
      ensures this.serverUrl == TrimTrailingSlashes(serverUrl)
      ensures this.accessToken == accessToken && this.userId == userId
      ensures this.deviceId == if IsSet(deviceId) then deviceId.value else generatedDeviceId
    {
      this.serverUrl := TrimTrailingSlashes(serverUrl);
      this.accessToken := accessToken;
      this.userId := userId;
      this.deviceId := if IsSet(deviceId) then deviceId.value else generatedDeviceId;
    }

    /** The parts of the MediaBrowser authorization header; a token part exactly when
        an access token is set. */
    function AuthParts(): (parts: seq<string>)
      reads this
      ensures (exists p :: p in parts && IsTokenPart(p)) <==> IsSet(accessToken)
      ensures IsSet(accessToken) ==> TokenPart(accessToken.value) in parts
      ensures DeviceIdPart(deviceId) in parts
    {
      var fixed := [
        "Client=\"" + ClientName + "\"",
        "Device=\"emby-sync\"",
        DeviceIdPart(deviceId),
        "Version=\"" + ClientVersion + "\""
      ];
      NotTokenPart(fixed[0]);
      NotTokenPart(fixed[1]);
      NotTokenPart(fixed[2]);
      NotTokenPart(fixed[3]);
      if IsSet(accessToken) then
        var token := TokenPart(accessToken.value);
        assert token[..6] == "Token=";
        assert IsTokenPart(token) && (fixed + [token])[4] == token;
        assert forall p :: p in fixed + [token] ==> p in fixed || p == token;
        fixed + [token]
      else fixed
    }

    /** `_get_headers`. */
    function Headers(): (h: map<string, string>)
      reads this
      ensures h.Keys == {"X-Emby-Authorization"}
    {
      map["X-Emby-Authorization" := "MediaBrowser " + Join(AuthParts(), ", ")]
    }

    /** `authenticate`: a 200 reply stores the token and user id and returns the
        session; any other outcome raises and leaves the client as it was. */
    method Authenticate(username: string, password: string, reply: Reply<LoginBody>)
      returns (r: Result<Session, EmbyError>)
      modifies this`accessToken, this`userId
      ensures r.Ok? <==> reply.Reply? && reply.status == 200
      ensures r.Ok? ==>
        && r.value == Session(reply.body.accessToken, reply.body.userId, deviceId)
        && accessToken == Some(reply.body.accessToken) && userId == Some(reply.body.userId)
      ensures r.Err? ==> r.error == CheckStatus(reply).error && accessToken == old(accessToken) && userId == old(userId)
    {
      var checked := CheckStatus(reply);
      if checked.Err? {
        return Err(checked.error);
      }
      accessToken := Some(checked.value.accessToken);
      userId := Some(checked.value.userId);
      r := Ok(Session(checked.value.accessToken, checked.value.userId, deviceId));
    }

    /** `get_watched_items`: one query per filter, stopping at the first failing reply,
        each reply's items parsed and added to the merge unless their id is already
        there. Also returns the queries it issued. */
    method GetWatchedItems(contentType: string, since: Option<Timestamp>, includePartial: bool,
                           server: Query -> Reply<seq<RawItem>>, now: Timestamp)
      returns (r: Result<seq<WatchedItem>, EmbyError>, queries: seq<Query>)
      ensures r == WatchedItems(userId, contentType, since, includePartial, server, now)
      ensures ItemTypes(contentType).Err? ==> queries == []
      ensures ItemTypes(contentType).Ok? ==>
        var all := Queries(userId, ItemTypes(contentType).value, Filters(includePartial), since);
        && 0 < |queries| && queries <= all
        && (r.Ok? ==> queries == all)
    {
      var itemTypes := ItemTypes(contentType);
      if itemTypes.Err? {
        return Err(itemTypes.error), [];
      }
      r, queries := QueryAll(userId, itemTypes.value, Filters(includePartial), since, server, now);
    }
  }

  /** One pass of the loop of `get_watched_items`: send the query, stop on a failing
      reply, otherwise add the reply's items to the merge. */
  method QueryOne(query: Query, server: Query -> Reply<seq<RawItem>>, merged: seq<WatchedItem>, seen: set<string>,
                  now: Timestamp, ghost queries: seq<Query>, ghost raws: seq<RawItem>)
    returns (err: Option<EmbyError>, merged': seq<WatchedItem>, seen': set<string>, ghost raws': seq<RawItem>)
    requires Collect(queries, server) == Ok(raws) && merged == Merge(ParseAll(raws, now)) && seen == IdsOf(merged)
    ensures err.Some? ==> Collect(queries + [query], server) == Err(err.value)
    ensures err.None? ==>
      && Collect(queries + [query], server) == Ok(raws')
      && merged' == Merge(ParseAll(raws', now)) && seen' == IdsOf(merged')
  {
    CollectSnoc(queries, query, server);
    var checked := CheckStatus(server(query));
    if checked.Err? {
      return Some(checked.error), merged, seen, raws;
    }
    err := None;
    merged', seen' := AddParsed(merged, seen, checked.value, now, raws);
    raws' := raws + checked.value;
  }

  /** The loop of `get_watched_items` over the filters. */
  method QueryAll(userId: Option<string>, itemTypes: string, filters: seq<string>, since: Option<Timestamp>,
                  server: Query -> Reply<seq<RawItem>>, now: Timestamp)
    returns (r: Result<seq<WatchedItem>, EmbyError>, queries: seq<Query>)
    ensures r == CollectMerged(Queries(userId, itemTypes, filters, since), server, now)
    ensures |filters| > 0 ==> 0 < |queries|
    ensures queries <= Queries(userId, itemTypes, filters, since)
    ensures r.Ok? ==> queries == Queries(userId, itemTypes, filters, since)
  {
    queries := [];
    var merged: seq<WatchedItem> := [];
    var seen: set<string> := {};
    ghost var raws: seq<RawItem> := [];
    for f := 0 to |filters|
      invariant queries == Queries(userId, itemTypes, filters[..f], since)
      invariant Collect(queries, server) == Ok(raws)
      invariant merged == Merge(ParseAll(raws, now)) && seen == IdsOf(merged)
    {
      var query := Query(userId, itemTypes, filters[f], since);
      QueriesSnoc(userId, itemTypes, filters, f, since);
      var err;
      err, merged, seen, raws := QueryOne(query, server, merged, seen, now, queries, raws);
      queries := queries + [query];
      if err.Some? {
        CollectStops(userId, itemTypes, filters, f, since, server, now);
        return Err(err.value), queries;
      }
    }
    assert filters[..|filters|] == filters;
    r := Ok(merged);
  }

  function DeviceIdPart(deviceId: string): string {
    "DeviceId=\"" + deviceId + "\""
  }

  function TokenPart(token: string): string {
    "Token=\"" + token + "\""
  }

  predicate IsTokenPart(p: string) {
    |p| >= 6 && p[..6] == "Token="
  }

  lemma NotTokenPart(p: string)
    requires p != [] && p[0] != 'T'
    ensures !IsTokenPart(p)
  {
  }

  /** `sep.join(parts)`. */
  function Join(parts: seq<string>, sep: string): string {
    if parts == [] then ""
    else if |parts| == 1 then parts[0]
    else Join(parts[..|parts| - 1], sep) + sep + parts[|parts| - 1]
  }
}
