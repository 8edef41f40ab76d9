# emby-to-trakt in Dafny

A model of the core of emby-to-trakt. The program reads the watched movies and
episodes of an Emby media server and pushes them to a Trakt account as watch
history and ratings.

The model covers these parts of the program:

- **The watched item record.** This is `WatchedItem` in `models.py`: its dict form
  (`to_dict`) and its reconstruction (`from_dict`).
- **The Emby client.**
  - Normalising a server item (`_parse_item`).
  - The one-or-two-query fetch, merged first-seen-wins by item id (`get_watched_items`).
  - Status classification, the login that stores the session, and the authorization header.
- **The Trakt client.**
  - Picking identifiers (`_build_movie_data` / `_build_episode_data`).
  - The history and rating payloads and their filter loops.
  - Rating clamping, history removal, and status handling.
- **The Trakt device-code authorization.**
  - Request, poll and refresh.
  - The nine-way classification of a poll reply.
- **The unmatched-item log.**
- **The configuration object.** Its setters, `save` and `load`.
- **The watched-item store.** `save_watched_items`, `load_watched_items` and
  `get_last_sync_time`.

Every HTTP request is replaced by its reply. That is either a `Reply(status, body)`
or the transport exception `NetworkFailure` (`Http.Reply`). Where a call's payload
matters, the model returns the payload it would send, or takes the reply as a
function of the payload.

Files are modelled by their parsed content:

- `None` means the file does not exist.
- Otherwise the content is a `Documents.Value`, the YAML/JSON value tree.

The clock (`datetime.now()`) and `uuid4()` are parameters. A timestamp is a `nat`.
`isoformat` renders it as decimal digits, and `fromisoformat` parses them back;
`Documents.IsoRoundTrip` proves the round trip. Python's truth value of an optional
text (`if x:`) is `Documents.IsSet`, and that of a parsed value is `Documents.Truthy`.

Two shared helpers come from `Seqs`:

- **`FilterMap`** is the shape of every "append `f(x)` unless it is `None`" loop.
- **`MapAll`** is the shape of a comprehension that stops at its first exception.

State the source changes in place is modelled by classes:

- **`UnmatchedLogger`**: its `items` list.
- **`Config`**: its eleven settings.
- **`DataStore`**: the content of `watched.yaml`.
- **`EmbyClient`**: its session fields.

The loops of the source are methods proved against the functions that specify them:

- the history and rating loops of `sync_history` / `sync_ratings`;
- the filter loop and the per-item merge loop of `get_watched_items`.

The Python code computes the completion percentage as `position / runtime * 100` with
no clamping. A position past the runtime therefore gives more than 100.
`EmbyClient.CompletionNotClamped` proves the value can exceed 100, and
`EmbyClient.CompletionBounds` proves it stays in range when the position is inside
the runtime.

## Model

| member | source | states |
|---|---|---|
| Documents.IsoFormat | emby_to_trakt/models.py:42 | the ISO text of a timestamp is non-empty and made of digits only |
| Documents.FromIsoFormat | emby_to_trakt/models.py:50 | the empty text is not a timestamp |
| Documents.IsoRoundTrip | emby_to_trakt/models.py:38-51 | parsing the ISO text of any timestamp gives back that timestamp |
| Models.AsDict | emby_to_trakt/models.py:40 | every field sits under its own name, with `watched_date` still a datetime; the key set is proved by `Models.AsDictKeys` and the values by the readback lemmas below |
| Models.ToDict | emby_to_trakt/models.py:38-43 | `to_dict` has the same keys as `asdict`; `watched_date` becomes its ISO text and every other key keeps the `asdict` value |
| Models.ConvertWatchedDate | emby_to_trakt/models.py:49-50 | a text `watched_date` is replaced by the datetime it denotes, or fails as a bad timestamp; any other value is left alone; no other key changes; a missing key fails |
| Models.Construct | emby_to_trakt/models.py:12-36 | `cls(**data)` succeeds only when no key is unknown and every required key is present; an absent optional key takes its default (`None`, or `{}` for `raw_metadata`) |
| Models.FromDict | emby_to_trakt/models.py:45-51 | a dict `from_dict` accepts has every required key and no unknown key |
| Models.AsDictKeys | emby_to_trakt/models.py:40 | `asdict` has exactly the dataclass's fields as keys: every required and every optional one, nothing else |
| Models.AsDictIdentity | emby_to_trakt/models.py:12-14 | the id, title and type read back from `asdict` as the record's own values |
| Models.AsDictWatchState | emby_to_trakt/models.py:15-17 | the watch date, play count and fully-watched flag read back from `asdict` as the record's own values |
| Models.AsDictPlayback | emby_to_trakt/models.py:18-20 | the completion and tick counts read back from `asdict` as the record's own values |
| Models.AsDictExternalIds | emby_to_trakt/models.py:23-28 | the optional provider ids and user rating read back from `asdict` as the record's own values, `None` included |
| Models.AsDictSeries | emby_to_trakt/models.py:31-36 | the optional series fields and the metadata dict read back from `asdict` as the record's own values |
| Models.ConstructAsDict | emby_to_trakt/models.py:40 | `cls(**asdict(x))` is `x` |
| Models.ConvertToDict | emby_to_trakt/models.py:38-50 | the date conversion of `from_dict` turns `to_dict(x)` back into `asdict(x)` |
| Models.RoundTrip | emby_to_trakt/models.py:38-51 | `from_dict(to_dict(x))` is `x`, field for field |
| Seqs.FilterMapAppend | emby_to_trakt/trakt_client.py:56-67 | the entries kept from a concatenation are those of the first part followed by those of the second |
| Seqs.FilterMapLength | emby_to_trakt/trakt_client.py:56-67 | the number of entries kept is the number of accepted items, at most the input length |
| Seqs.FilterMapMember | emby_to_trakt/trakt_client.py:56-67 | a value is kept if and only if some input element yields it |
| Seqs.FilterMapNone | emby_to_trakt/trakt_client.py:56-67 | when every element is rejected, nothing is kept |
| Seqs.MapAll | emby_to_trakt/storage.py:54 | a successful comprehension has one result per element, each the element's own result |
| Seqs.MapAllSucceeds | emby_to_trakt/storage.py:54 | when every element succeeds, the comprehension gives exactly their results |
| Seqs.MapAllFails | emby_to_trakt/storage.py:54 | a failing comprehension raises the error of the first element that fails; all earlier ones succeeded |
| TraktClient.BuildMovieData | emby_to_trakt/trakt_client.py:95-109 | no entry if and only if neither imdb nor tmdb id is set; imdb is preferred, and tmdb is used only without imdb |
| TraktClient.BuildEpisodeData | emby_to_trakt/trakt_client.py:111-125 | no entry if and only if neither tvdb nor imdb id is set; tvdb is preferred, and imdb is used only without tvdb; tmdb is never used |
| TraktClient.Truncate | emby_to_trakt/trakt_client.py:226 | `int(r)` truncates toward zero: within one of `r`, on the zero side |
| TraktClient.ClampRating | emby_to_trakt/trakt_client.py:226 | the rating sent lies in 1..10; below 1 gives 1, 10 and above give 10, otherwise the truncated value |
| TraktClient.Payload | emby_to_trakt/trakt_client.py:69-76 | a key per non-empty list, holding that list; empty if and only if both lists are empty |
| TraktClient.Posted | emby_to_trakt/trakt_client.py:88-93 | a POST succeeds if and only if it answers 200 or 201; other statuses and transport failures raise `TraktError` |
| TraktClient.Fetched | emby_to_trakt/trakt_client.py:138-145 | a GET succeeds if and only if it answers 200, with the body returned |
| TraktClient.BuildHistoryLists | emby_to_trakt/trakt_client.py:56-67 | the loop yields, in input order, the usable movie entries of movie items and episode entries of episode items |
| TraktClient.BuildRatingLists | emby_to_trakt/trakt_client.py:221-237 | the loop yields the same entries restricted to rated items, each carrying its clamped rating |
| TraktClient.SyncHistoryCall | emby_to_trakt/trakt_client.py:51-93 | no request (zero counts) if and only if both lists are empty; otherwise it sends the payload of the lists, and the reply status decides the result |
| TraktClient.SyncRatingsCall | emby_to_trakt/trakt_client.py:213-263 | the same over the rating lists |
| TraktClient.IdsOnly | emby_to_trakt/trakt_client.py:176-178 | one `{"ids": ...}` per remote item, in order |
| TraktClient.RemoveFromHistory | emby_to_trakt/trakt_client.py:165-198 | a key per non-empty argument, holding its ids; no request and zero counts when both are empty or `None`; otherwise the reply status decides |
| TraktClient.ClearAllHistory | emby_to_trakt/trakt_client.py:200-211 | a failing movies or shows listing raises its error with nothing removed; a removal is sent if and only if both listings answered 200 and one is non-empty, and it is `remove_from_history` of both |
| TraktClient.HistoryListSizes | emby_to_trakt/trakt_client.py:56-67 | at most one movie entry per movie item and one episode entry per episode item |
| TraktClient.HistoryListsKeepOrder | emby_to_trakt/trakt_client.py:59-67 | the history lists follow input order across any split of the input |
| TraktClient.MovieEntriesFromItems | emby_to_trakt/trakt_client.py:59-63 | an entry is sent as a movie if and only if it is the entry of some movie item |
| TraktClient.EpisodeEntriesFromItems | emby_to_trakt/trakt_client.py:64-67 | an entry is sent as an episode if and only if it is the entry of some episode item |
| TraktClient.NoUsableIdSendsNothing | emby_to_trakt/trakt_client.py:56-76 | when no movie has an imdb or tmdb id and no episode a tvdb or imdb id, both lists are empty |
| TraktClient.RatingsInRange | emby_to_trakt/trakt_client.py:221-237 | every rated entry comes from a rated item of its kind, carries that item's clamped rating, and lies in 1..10 |
| EmbyClient.CheckStatus | emby_to_trakt/emby_client.py:79-84 | 200 passes the body; 401 is an authentication error; any other status, or no answer, is a connection error |
| EmbyClient.TrimTrailingSlashes | emby_to_trakt/emby_client.py:38 | `rstrip("/")`: a prefix with no trailing slash, only slashes removed |
| EmbyClient.Lower | emby_to_trakt/emby_client.py:205 | lower-casing keeps the length and maps each character |
| EmbyClient.Completion | emby_to_trakt/emby_client.py:197-203 | with a positive runtime, percentage × runtime = position × 100; otherwise 100 if played, else 0 |
| EmbyClient.CompletionBounds | emby_to_trakt/emby_client.py:200-201 | a position within the runtime gives a percentage in 0..100 |
| EmbyClient.CompletionNotClamped | emby_to_trakt/emby_client.py:200-201 | a position past the runtime gives a percentage above 100 |
| EmbyClient.ParseItem | emby_to_trakt/emby_client.py:182-227 | an item is kept if and only if its lower-cased type is movie or episode; episode fields only for episodes; defaults for missing keys, the play count included (0); the clock when nothing was played; the raw object as metadata |
| EmbyClient.IdsOfMember | emby_to_trakt/emby_client.py:177 | an id is among the merged ids if and only if some record has it |
| EmbyClient.MergeUnique | emby_to_trakt/emby_client.py:175-180 | the merged records have pairwise distinct ids, and the same set of ids as the parsed items |
| EmbyClient.FirstOfItsId | emby_to_trakt/emby_client.py:177-178 | a record whose id is not yet merged has no earlier record with that id |
| EmbyClient.MergeFirstSeen | emby_to_trakt/emby_client.py:141-180 | each merged record is the first parsed record with its id, and the merged order is the order of first appearance |
| EmbyClient.ItemTypes | emby_to_trakt/emby_client.py:129-134 | "movies" selects Movie, "episodes" selects Episode, anything else is a `ValueError` |
| EmbyClient.Filters | emby_to_trakt/emby_client.py:137-139 | IsPlayed first, then IsResumable if and only if partial items are wanted |
| EmbyClient.Queries | emby_to_trakt/emby_client.py:143-152 | one query per filter, in filter order, each with the item type and `since` |
| EmbyClient.CollectErrExtends | emby_to_trakt/emby_client.py:166-171 | once a reply fails, later queries do not change the error raised |
| EmbyClient.CollectSnoc | emby_to_trakt/emby_client.py:156-175 | one more query adds its reply's items, or raises its status error |
| EmbyClient.QueriesSnoc | emby_to_trakt/emby_client.py:143-152 | the queries of one more filter are the previous queries plus that filter's query |
| EmbyClient.CollectStops | emby_to_trakt/emby_client.py:143-171 | a failing reply to one filter's query is the error of the whole fetch, and the queries sent so far are a prefix of all queries |
| EmbyClient.WatchedItemsMerged | emby_to_trakt/emby_client.py:141-180 | the fetched records have distinct ids and are the merge of the parsed items of all replies |
| EmbyClient.ParseAllSnoc | emby_to_trakt/emby_client.py:175-176 | parsing one more server item appends its record when it is kept |
| EmbyClient.MergeSnoc | emby_to_trakt/emby_client.py:177-178 | merging one more record adds it only when its id is new |
| EmbyClient.IdsOfSnoc | emby_to_trakt/emby_client.py:178 | adding a record adds its id |
| EmbyClient.Merge | emby_to_trakt/emby_client.py:175-180 | the merge is empty if and only if its input is; its order and uniqueness are stated by `EmbyClient.MergeUnique` and `EmbyClient.MergeFirstSeen` |
| EmbyClient.AddParsedStep | emby_to_trakt/emby_client.py:175-178 | one server item joins the merge exactly when it parses and its id is new |
| EmbyClient.AddParsed | emby_to_trakt/emby_client.py:175-178 | the per-reply loop leaves the merge of everything parsed so far, and the ids seen |
| EmbyClient.QueryOne | emby_to_trakt/emby_client.py:156-178 | one pass of the filter loop: a failing reply is the fetch's error; otherwise its items join the merge |
| EmbyClient.QueryAll | emby_to_trakt/emby_client.py:143-180 | the filter loop returns the merged items of all replies or the first failing reply's error, having sent a non-empty prefix of the queries (all of them on success) |
| EmbyClient.EmbyClient.constructor | emby_to_trakt/emby_client.py:30-41 | the server URL loses its trailing slashes; the device id is the given one when set, else the generated one |
| EmbyClient.EmbyClient.AuthParts | emby_to_trakt/emby_client.py:46-53 | the header carries a token part if and only if an access token is set, and always the device id |
| EmbyClient.EmbyClient.Headers | emby_to_trakt/emby_client.py:55-57 | the only header is the MediaBrowser authorization |
| EmbyClient.EmbyClient.Authenticate | emby_to_trakt/emby_client.py:60-94 | a 200 login stores the token and user id and returns the session; otherwise it raises the status error and leaves both fields unchanged |
| EmbyClient.EmbyClient.GetWatchedItems | emby_to_trakt/emby_client.py:113-180 | the result is the specification `WatchedItems`; an unknown content type sends no query; on success every filter was queried |
| TraktAuth.NewTraktAuth | emby_to_trakt/trakt_auth.py:17-30 | refused if and only if the client id is `None` or empty; otherwise both credentials are kept |
| TraktAuth.DeviceCodePayload | emby_to_trakt/trakt_auth.py:54 | the device-code request carries the client id only |
| TraktAuth.WithSecret | emby_to_trakt/trakt_auth.py:86-87 | the secret is added if and only if it is set and non-empty; other keys are unchanged |
| TraktAuth.PollPayload | emby_to_trakt/trakt_auth.py:82-87 | code and client id, plus the secret if and only if it is set |
| TraktAuth.RefreshPayload | emby_to_trakt/trakt_auth.py:147-153 | refresh token, client id, grant type `refresh_token`, plus the secret if and only if it is set |
| TraktAuth.RequestDeviceCode | emby_to_trakt/trakt_auth.py:40-64 | succeeds if and only if the reply is 200 with a decodable body; another status raises with that status; no answer is a connection error |
| TraktAuth.ClassifyPoll | emby_to_trakt/trakt_auth.py:98-130 | tokens if and only if 200 with a decodable body; pending if and only if 429, or 400 with an empty body or `authorization_pending`; denial if and only if 400 with `access_denied` or `expired_token`; 409, 410 and 418 each their own error; 200 undecodable is an invalid response; every other status fails with that status |
| TraktAuth.PollForToken | emby_to_trakt/trakt_auth.py:66-130 | the poll payload's reply gives tokens if and only if it is 200 with a decodable body; pending only on 400 or 429; a transport failure if and only if the request failed |
| TraktAuth.RefreshToken | emby_to_trakt/trakt_auth.py:132-167 | succeeds if and only if the reply is 200 with a decodable body; another status raises with that status |
| Unmatched.EntryOf | emby_to_trakt/unmatched.py:23-31 | the entry carries the item's title, type, Emby id, three provider ids and the reason |
| Unmatched.UnmatchedLogger.constructor | emby_to_trakt/unmatched.py:15-19 | a new log is empty |
| Unmatched.UnmatchedLogger.Log | emby_to_trakt/unmatched.py:21-31 | exactly one entry is appended after the earlier ones, and the count rises by one |
| Unmatched.UnmatchedLogger.Count | emby_to_trakt/unmatched.py:49-51 | the number of logged entries, zero exactly when none was logged |
| Unmatched.UnmatchedLogger.Save | emby_to_trakt/unmatched.py:33-47 | nothing is written if and only if nothing was logged; otherwise the count is the number of entries, the entries are the log in order, and the time is the clock's; the log is not changed |
| Config.OptValue | emby_to_trakt/config.py:99-117 | an unset setting is written as null, a set one as its text |
| Config.ToDocument | emby_to_trakt/config.py:97-118 | the document holds exactly the `emby`, `sync` and `trakt` sections |
| Config.EmbySection | emby_to_trakt/config.py:98-103 | the Emby section holds exactly the four Emby settings |
| Config.SyncSection | emby_to_trakt/config.py:104-109 | the sync section holds the mode as text and the last sync as ISO text, or null when unset |
| Config.TraktSection | emby_to_trakt/config.py:110-116 | the Trakt section holds exactly the five Trakt settings |
| Config.Section | emby_to_trakt/config.py:138 | a missing section reads as empty; a section that is not a mapping fails |
| Config.OptField | emby_to_trakt/config.py:139-142 | a missing or null entry reads as unset, a text as set |
| Config.ModeField | emby_to_trakt/config.py:145 | a missing mode is `incremental`; a stored mode is taken as is |
| Config.LastSyncField | emby_to_trakt/config.py:146-148 | a missing or falsy entry keeps the prior value; a text is parsed, and an unparsable one fails |
| Config.LoadSyncMode | emby_to_trakt/config.py:144-145 | only the mode changes; without a sync section it becomes `incremental` |
| Config.LoadLastSync | emby_to_trakt/config.py:146-148 | only the last sync changes; without a sync section nothing does |
| Config.LoadEmby | emby_to_trakt/config.py:138-142 | only the four Emby settings change, each to the value its entry of the `emby` section reads as; without the section all four become unset |
| Config.LoadTrakt | emby_to_trakt/config.py:150-155 | only the five Trakt settings change, each to the value its entry of the `trakt` section reads as; without the section all five become unset |
| Config.LoadEmbySaved | emby_to_trakt/config.py:99-142 | the saved Emby section loads back as the saved settings |
| Config.LoadTraktSaved | emby_to_trakt/config.py:111-155 | the saved Trakt section loads back as the saved settings |
| Config.LoadSyncSaved | emby_to_trakt/config.py:105-148 | the saved mode loads back; a saved last sync loads back, and a null one keeps the prior value |
| Config.SaveLoadRoundTrip | emby_to_trakt/config.py:96-155 | loading what `save` wrote restores every setting without error; a last sync saved as null leaves the prior one in place |
| Config.LoadInto | emby_to_trakt/config.py:127-155 | no file raises `NotFound` and changes nothing; content that is not a mapping fails before any assignment; a failing Emby section changes nothing; success needs a mapping |
| Config.LoadEmptyDocument | emby_to_trakt/config.py:138-155 | a document without sections unsets every setting, sets the mode to `incremental` and keeps the prior last sync |
| Config.LoadMissingFile | emby_to_trakt/config.py:129-133 | without a file, `load` raises and changes nothing |
| Config.Config.constructor | emby_to_trakt/config.py:32-47 | a new configuration has mode `incremental` and every other setting unset |
| Config.Config.SetEmbyCredentials | emby_to_trakt/config.py:53-64 | the four Emby settings are set; nothing else changes |
| Config.Config.SetSyncMode | emby_to_trakt/config.py:66-70 | accepted if and only if the mode is `full` or `incremental`; a refused mode raises and changes nothing |
| Config.Config.SetLastSync | emby_to_trakt/config.py:72-74 | only the last sync time changes |
| Config.Config.SetTraktCredentials | emby_to_trakt/config.py:76-89 | the five Trakt settings are set; nothing else changes |
| Config.Config.TraktConfigured | emby_to_trakt/config.py:91-94 | holds if and only if both the Trakt access token and the client id are set and non-empty |
| Config.Config.Save | emby_to_trakt/config.py:96-121 | the document written is that of the current settings |
| Config.Config.Assign | emby_to_trakt/config.py:139-155 | the settings become the given ones |
| Config.Config.Load | emby_to_trakt/config.py:127-155 | the settings and the error raised are those of `LoadInto`, including the settings assigned before a failing step |
| Storage.ItemValues | emby_to_trakt/storage.py:30 | one `to_dict` per item, in order |
| Storage.Snapshot | emby_to_trakt/storage.py:25-31 | metadata with the clock's ISO time and `total_items` equal to the number of items; the items' dicts in order |
| Storage.In | emby_to_trakt/storage.py:51 | Python's `key in data`: a key of a dict, an element of a list, a piece of a text; it raises for numbers, booleans and datetimes |
| Storage.ItemsOfStored | emby_to_trakt/storage.py:54 | a list is read item by item; an empty text or dict gives no items; any other value fails, never as a mapping error |
| Storage.ItemsFromValues | emby_to_trakt/storage.py:54 | one item per stored value on success; a failure is a value that is not a dict or a dict `from_dict` refuses |
| Storage.ItemFromValue | emby_to_trakt/storage.py:54 | a stored value reads as an item if and only if it is a dict that `from_dict` accepts |
| Storage.ItemsFromFile | emby_to_trakt/storage.py:43-54 | no file, an empty document, or content for which `"watched_items" in data` is false (a dict without the key, a list or text without it) gives no items; a dict with the key gives the items of its value; the content is refused as not a mapping if and only if it is truthy, not a dict, and `in` does not answer false |
| Storage.LastSyncFromFile | emby_to_trakt/storage.py:56-70 | no file, an empty document, content without the metadata key, or metadata whose `last_updated` is missing or falsy gives no time; a time returned is the parse of the stored `last_updated` text |
| Storage.ItemsFromListed | emby_to_trakt/storage.py:51-54 | a non-empty document with a `watched_items` list loads as the items of that list |
| Storage.LastSyncStored | emby_to_trakt/storage.py:64-69 | a non-empty `last_updated` text in the metadata reads back as the time it denotes |
| Storage.ItemsFromSavedValues | emby_to_trakt/storage.py:30-54 | the saved item dicts read back as the items |
| Storage.SaveLoadRoundTrip | emby_to_trakt/storage.py:23-54 | loading what was saved gives the same items in the same order |
| Storage.SaveLastSync | emby_to_trakt/storage.py:25-70 | after a save, the last sync time read back is the clock reading of the save |
| Storage.DataStore.constructor | emby_to_trakt/storage.py:15-21 | the store starts over the file's existing content |
| Storage.DataStore.SaveWatchedItems | emby_to_trakt/storage.py:23-41 | the file becomes the snapshot; loading it gives the items back, and its sync time is the save's |
| Storage.DataStore.LoadWatchedItems | emby_to_trakt/storage.py:43-54 | the items read from the current file |
| Storage.DataStore.GetLastSyncTime | emby_to_trakt/storage.py:56-70 | the last sync time read from the current file |

## Left out

- **HTTP mechanics.** URLs, query parameters that never vary, timeouts and JSON encoding are not modelled.
- **Request headers.** The Trakt `_get_headers` of both Trakt classes is a constant map, and it is not modelled.
- **`test_connection`.** In both clients it is a boolean probe of the transport.
- **`int(...)` of tmdb and tvdb ids.** `TraktClient.TraktId` keeps the id text, so the `ValueError` of a non-numeric id is not modelled.
- **`round(completion, 2)`.** `EmbyClient.Completion` is the exact value, because real rounding adds nothing to the properties.
- **Emby's `LastPlayedDate` text.** The rewriting of the trailing `Z` and fraction, and the parse, are not modelled. `RawItem` carries the already-parsed timestamp.
- **Body shapes.** An Emby reply body is the `Items` list, so a 200 reply without `Items` is an empty list. A Trakt success body is the counts object.
- EmbyClient.EmbyClient.Authenticate: a 200 login body is assumed to carry `AccessToken` and `User.Id`. In Python a body without them raises `KeyError`, possibly after the token was already stored; the model cannot represent that reply.
- **JSON bodies that are not objects.** `TraktAuth.Body` holds a document only.
- **Timestamps.** Time zones, microseconds and the `+ "Z"` suffix of `watched_at` are not modelled. A timestamp is a count of seconds.
- **Files.**
  - YAML dumping and parsing, `mkdir`, the data directory paths and `chmod 0600` of the config file are not modelled.
  - `Config.exists` is not modelled.
  - A file is its parsed content.
- **`cli.py`.** The commands, the dry-run mode, the sync pipeline and the retry loop of the device-code poll are outside the core.
- Models.Construct: `cls(**data)` does not check value types. The model refuses a value whose type differs from the field's annotation (`WrongType`), where Python would store it.
- Config.Config.Load: the model is stricter than Python in three ways:
  - A setting whose value is neither null nor text, or a mode that is not text, is refused (`Malformed`). Python stores whatever YAML gives.
  - A section is checked as a whole before its settings are assigned. Python assigns them one by one, and none of those assignments can fail there.
  - Null file content, which Python fails on with an `AttributeError`, is reported as `Malformed("")`.
- Storage.ItemsFromFile: where Python raises (`in` on a number, boolean or datetime; indexing a list or text that contains the key; iterating a non-empty text or dict, a number or null as `watched_items`) the model returns a store error instead of an exception. Where Python answers (a list or text without the key gives no items, an empty text or dict as `watched_items` gives no items), the model answers the same.
- Storage.LastSyncFromFile: where Python raises (`in` on a number, boolean or datetime; indexing a list or text that contains the key; metadata that is not a dict; a `last_updated` that is not text) the model returns a store error instead of an exception.
- EmbyClient.ParseItem: one clock reading `now` serves every item of a fetch. Python calls `datetime.now()` once per item without a play date, so those items may get slightly different times.
- EmbyClient.Lower: lower-cases ASCII letters only, while `str.lower()` is Unicode-aware. Only the results `movie` and `episode` matter, and those are reached the same way.
- TraktAuth.RequestDeviceCode: an undecodable 200 body is `UndecodableBody`. In Python that is the decoder's own exception, not a `TraktAuthError`.
- TraktAuth.RefreshToken: an undecodable 200 body is `UndecodableBody`. In Python that is the decoder's own exception, not a `TraktAuthError`.
