/** The settings of the program (`config.py`): Emby and Trakt credentials, the sync
    mode and the time of the last sync, saved to and loaded from `config.yaml`. The
    file is the document `Save` returns and `Load` is given (`None` when it does not
    exist). */
module Config {
  import opened Wrappers
  import opened Documents

  datatype ConfigError =
    | NotFound
    | Malformed(key: string)
    | BadTimestamp(text: string)
    | InvalidSyncMode(mode: string)

  /** Every setting the object holds. */
  datatype ConfigState = ConfigState(
    serverUrl: Option<string>,
    userId: Option<string>,
    accessToken: Option<string>,
    deviceId: Option<string>,
    syncMode: string,
    lastSync: Option<Timestamp>,
    traktClientId: Option<string>,
    traktClientSecret: Option<string>,
    traktAccessToken: Option<string>,
    traktRefreshToken: Option<string>,
    traktExpiresAt: Option<string>)

  /** The settings of a new object: incremental sync, nothing else set. */
  const DefaultState := ConfigState(None, None, None, None, "incremental", None, None, None, None, None, None)

  /** A settings value as YAML writes it: the text, or null. */
  function OptValue(o: Option<string>): (v: Value)
    ensures o.None? <==> v == Null
    ensures o.Some? ==> v == Str(o.value)
  {
    if o.Some? then Str(o.value) else Null
  }

  /** The document `save` writes: three sections, `last_sync` as ISO text or null. */
  function ToDocument(s: ConfigState): (d: Document)
    ensures d.Keys == {"emby", "sync", "trakt"}
    ensures d["emby"] == Dict(EmbySection(s)) && d["sync"] == Dict(SyncSection(s))
    ensures d["trakt"] == Dict(TraktSection(s))
  {
    map["emby" := Dict(EmbySection(s)), "sync" := Dict(SyncSection(s)), "trakt" := Dict(TraktSection(s))]
  }

  /** The `emby` section `save` writes. */
  function EmbySection(s: ConfigState): (e: Document)
    ensures e.Keys == {"server_url", "user_id", "access_token", "device_id"}
  {
    map[
      "server_url" := OptValue(s.serverUrl),
      "user_id" := OptValue(s.userId),
      "access_token" := OptValue(s.accessToken),
      "device_id" := OptValue(s.deviceId)]
  }

  /** The `sync` section `save` writes: the mode, and the last sync as ISO text or null. */
  function SyncSection(s: ConfigState): (e: Document)
    ensures e.Keys == {"mode", "last_sync"}
    ensures e["mode"] == Str(s.syncMode)
    ensures e["last_sync"] == if s.lastSync.Some? then Str(IsoFormat(s.lastSync.value)) else Null
  {
    map[
      "mode" := Str(s.syncMode),
      "last_sync" := if s.lastSync.Some? then Str(IsoFormat(s.lastSync.value)) else Null]
  }

  /** The `trakt` section `save` writes. */
  function TraktSection(s: ConfigState): (e: Document)
    ensures e.Keys == {"client_id", "client_secret", "access_token", "refresh_token", "expires_at"}
  {
    map[
      "client_id" := OptValue(s.traktClientId),
      "client_secret" := OptValue(s.traktClientSecret),
      "access_token" := OptValue(s.traktAccessToken),
      "refresh_token" := OptValue(s.traktRefreshToken),
      "expires_at" := OptValue(s.traktExpiresAt)]
  }

  /** `data.get(key, {})`: a missing section reads as empty; one that is not a
      mapping fails. */
  function Section(data: Document, key: string): (r: Result<Document, ConfigError>)
    ensures key !in data ==> r == Ok(map[])
    ensures key in data && data[key].Dict? ==> r == Ok(data[key].entries)
    ensures r.Err? <==> key in data && !data[key].Dict?
    ensures r.Err? ==> r.error == Malformed(key)
  {
    if key !in data then Ok(map[])
    else if data[key].Dict? then Ok(data[key].entries)
    else Err(Malformed(key))
  }

  /** `section.get(key)` read as an optional text: missing or null is `None`. */
  function OptField(section: Document, key: string): (r: Result<Option<string>, ConfigError>)
    ensures r.Ok? <==> key !in section || section[key] == Null || section[key].Str?
    ensures r.Ok? ==> (r.value.None? <==> key !in section || section[key] == Null)
    ensures r.Ok? && r.value.Some? ==> section[key] == Str(r.value.value)
    ensures r.Err? ==> r.error == Malformed(key)
  {
    if key !in section || section[key] == Null then Ok(None)
    else if section[key].Str? then Ok(Some(section[key].s))
    else Err(Malformed(key))
  }

  /** The value `load` gives the sync mode: `incremental` when the key is missing,
      the text as stored otherwise (not checked against the allowed modes). */
  function ModeField(sync: Document): (r: Result<string, ConfigError>)
    ensures "mode" !in sync ==> r == Ok("incremental")
    ensures "mode" in sync && sync["mode"].Str? ==> r == Ok(sync["mode"].s)
    ensures r.Err? <==> "mode" in sync && !sync["mode"].Str?
  {
    if "mode" !in sync then Ok("incremental")
    else if sync["mode"].Str? then Ok(sync["mode"].s)
    else Err(Malformed("mode"))
  }

  /** The value `load` gives the last sync time: a falsy entry keeps the prior
      value, a text is parsed as an ISO timestamp. */
  function LastSyncField(sync: Document, prior: Option<Timestamp>): (r: Result<Option<Timestamp>, ConfigError>)
    ensures ("last_sync" !in sync || !Truthy(sync["last_sync"])) ==> r == Ok(prior)
    ensures "last_sync" in sync && sync["last_sync"].Str? && sync["last_sync"].s != "" ==>
      r == match FromIsoFormat(sync["last_sync"].s)
           case None => Err(BadTimestamp(sync["last_sync"].s))
           case Some(t) => Ok(Some(t))
    ensures r.Ok? && r.value != prior ==> "last_sync" in sync && sync["last_sync"].Str?
  {
    if "last_sync" !in sync || !Truthy(sync["last_sync"]) then Ok(prior)
    else match sync["last_sync"]
      case Str(text) =>
        (match FromIsoFormat(text)
         case None => Err(BadTimestamp(text))
         case Some(t) => Ok(Some(t)))
      case _ => Err(Malformed("last_sync"))
  }

  /** The outcome of `load`: the settings it leaves behind, and the error it raised
      part way, if any. Settings assigned before the error stay assigned. */
  datatype LoadOutcome = LoadOutcome(state: ConfigState, error: Option<ConfigError>)

  /** `load` on the content of the file (`None` when there is no file). */
  function LoadInto(file: Option<Value>, s: ConfigState): (r: LoadOutcome)
    ensures file.None? ==> r == LoadOutcome(s, Some(NotFound))
    ensures file.Some? && !file.value.Dict? ==> r == LoadOutcome(s, Some(Malformed("")))
    ensures file.Some? && file.value.Dict? && LoadEmby(file.value.entries, s).Err? ==>
      r == LoadOutcome(s, Some(LoadEmby(file.value.entries, s).error))
    ensures r.error.None? ==> file.Some? && file.value.Dict?
  {
    match file
    case None => LoadOutcome(s, Some(NotFound))
    case Some(v) =>
      if !v.Dict? then LoadOutcome(s, Some(Malformed("")))
      else
        var data := v.entries;
        match LoadEmby(data, s)
        case Err(e) => LoadOutcome(s, Some(e))
        case Ok(s1) => AfterEmby(data, s1)
  }

  /** The rest of `load` once the Emby settings are assigned. */
  function AfterEmby(data: Document, s1: ConfigState): LoadOutcome {
    match LoadSyncMode(data, s1)
    case Err(e) => LoadOutcome(s1, Some(e))
    case Ok(s2) => AfterMode(data, s2)
  }

  /** The rest of `load` once the sync mode is assigned. */
  function AfterMode(data: Document, s2: ConfigState): LoadOutcome {
    match LoadLastSync(data, s2)
    case Err(e) => LoadOutcome(s2, Some(e))
    case Ok(s3) =>
      match LoadTrakt(data, s3)
      case Err(e) => LoadOutcome(s3, Some(e))
      case Ok(s4) => LoadOutcome(s4, None)
  }

  /** The sync mode line of `load`. */
  function LoadSyncMode(data: Document, s: ConfigState): (r: Result<ConfigState, ConfigError>)
    ensures r.Ok? ==> r.value == s.(syncMode := r.value.syncMode)
    ensures "sync" !in data ==> r == Ok(s.(syncMode := "incremental"))
  {
    var sync :- Section(data, "sync");
    var mode :- ModeField(sync);
    Ok(s.(syncMode := mode))
  }

  /** The last sync lines of `load`. */
  function LoadLastSync(data: Document, s: ConfigState): (r: Result<ConfigState, ConfigError>)
    ensures r.Ok? ==> r.value == s.(lastSync := r.value.lastSync)
    ensures "sync" !in data ==> r == Ok(s)
  {
    var sync :- Section(data, "sync");
    var lastSync :- LastSyncField(sync, s.lastSync);
    Ok(s.(lastSync := lastSync))
  }

  /** The Emby section of `load`: the four credentials replaced by the file's. */
  function LoadEmby(data: Document, s: ConfigState): (r: Result<ConfigState, ConfigError>)
    ensures r.Ok? ==> r.value == s.(serverUrl := r.value.serverUrl, userId := r.value.userId,
                                    accessToken := r.value.accessToken, deviceId := r.value.deviceId)
    ensures r.Ok? ==>
      && Section(data, "emby").Ok?
      && var emby := Section(data, "emby").value;
      && OptField(emby, "server_url") == Ok(r.value.serverUrl)
      && OptField(emby, "user_id") == Ok(r.value.userId)
      && OptField(emby, "access_token") == Ok(r.value.accessToken)
      && OptField(emby, "device_id") == Ok(r.value.deviceId)
    ensures "emby" !in data ==> r == Ok(s.(serverUrl := None, userId := None, accessToken := None, deviceId := None))
  {
    var emby :- Section(data, "emby");
    var serverUrl :- OptField(emby, "server_url");
    var userId :- OptField(emby, "user_id");
    var accessToken :- OptField(emby, "access_token");
    var deviceId :- OptField(emby, "device_id");
    Ok(s.(serverUrl := serverUrl, userId := userId, accessToken := accessToken, deviceId := deviceId))
  }

  /** The Trakt section of `load`: the five credentials replaced by the file's. */
  function LoadTrakt(data: Document, s: ConfigState): (r: Result<ConfigState, ConfigError>)
    ensures r.Ok? ==> r.value == s.(traktClientId := r.value.traktClientId, traktClientSecret := r.value.traktClientSecret,
                                    traktAccessToken := r.value.traktAccessToken, traktRefreshToken := r.value.traktRefreshToken,
                                    traktExpiresAt := r.value.traktExpiresAt)
    ensures r.Ok? ==>
      && Section(data, "trakt").Ok?
      && var trakt := Section(data, "trakt").value;
      && OptField(trakt, "client_id") == Ok(r.value.traktClientId)
      && OptField(trakt, "client_secret") == Ok(r.value.traktClientSecret)
      && OptField(trakt, "access_token") == Ok(r.value.traktAccessToken)
      && OptField(trakt, "refresh_token") == Ok(r.value.traktRefreshToken)
      && OptField(trakt, "expires_at") == Ok(r.value.traktExpiresAt)
    ensures "trakt" !in data ==>
      r == Ok(s.(traktClientId := None, traktClientSecret := None, traktAccessToken := None,
                 traktRefreshToken := None, traktExpiresAt := None))
  {
    var trakt :- Section(data, "trakt");
    var clientId :- OptField(trakt, "client_id");
    var clientSecret :- OptField(trakt, "client_secret");
    var accessToken :- OptField(trakt, "access_token");
    var refreshToken :- OptField(trakt, "refresh_token");
    var expiresAt :- OptField(trakt, "expires_at");
    Ok(s.(traktClientId := clientId, traktClientSecret := clientSecret, traktAccessToken := accessToken,
          traktRefreshToken := refreshToken, traktExpiresAt := expiresAt))
  }

  /** A document with no sections loads every setting as unset and the mode as
      `incremental`, and keeps the last sync time held before. */
  lemma LoadEmptyDocument(s: ConfigState)
    ensures LoadInto(Some(Dict(map[])), s)
         == LoadOutcome(DefaultState.(lastSync := s.lastSync), None)
  {
    var data: Document := map[];
    assert LoadEmby(data, s) == Ok(s.(serverUrl := None, userId := None, accessToken := None, deviceId := None));
  }

  lemma LoadEmbySaved(s: ConfigState, prior: ConfigState)
    ensures LoadEmby(ToDocument(s), prior)
         == Ok(prior.(serverUrl := s.serverUrl, userId := s.userId, accessToken := s.accessToken, deviceId := s.deviceId))
  {
    var emby := EmbySection(s);
    assert Section(ToDocument(s), "emby") == Ok(emby);
    assert OptField(emby, "server_url") == Ok(s.serverUrl);
    assert OptField(emby, "user_id") == Ok(s.userId);
    assert OptField(emby, "access_token") == Ok(s.accessToken);
    assert OptField(emby, "device_id") == Ok(s.deviceId);
  }

  lemma LoadTraktSaved(s: ConfigState, prior: ConfigState)
    ensures LoadTrakt(ToDocument(s), prior)
         == Ok(prior.(traktClientId := s.traktClientId, traktClientSecret := s.traktClientSecret,
                      traktAccessToken := s.traktAccessToken, traktRefreshToken := s.traktRefreshToken,
                      traktExpiresAt := s.traktExpiresAt))
  {
    var trakt := TraktSection(s);
    assert Section(ToDocument(s), "trakt") == Ok(trakt);
    assert OptField(trakt, "client_id") == Ok(s.traktClientId);
    assert OptField(trakt, "client_secret") == Ok(s.traktClientSecret);
    assert OptField(trakt, "access_token") == Ok(s.traktAccessToken);
    assert OptField(trakt, "refresh_token") == Ok(s.traktRefreshToken);
    assert OptField(trakt, "expires_at") == Ok(s.traktExpiresAt);
  }

  lemma LoadSyncSaved(s: ConfigState, prior: ConfigState)
    ensures LoadSyncMode(ToDocument(s), prior) == Ok(prior.(syncMode := s.syncMode))
    ensures LoadLastSync(ToDocument(s), prior)
         == Ok(prior.(lastSync := if s.lastSync.Some? then s.lastSync else prior.lastSync))
  {
    var sync := SyncSection(s);
    assert Section(ToDocument(s), "sync") == Ok(sync);
    if s.lastSync.Some? {
      IsoRoundTrip(s.lastSync.value);
      assert LastSyncField(sync, prior.lastSync) == Ok(s.lastSync);
    }
  }

  /** Loading what `save` wrote gives back every setting, except that a last sync
      time saved as null leaves the one held before the load in place. */
  lemma SaveLoadRoundTrip(s: ConfigState, prior: ConfigState)
    ensures LoadInto(Some(Dict(ToDocument(s))), prior)
         == LoadOutcome(s.(lastSync := if s.lastSync.Some? then s.lastSync else prior.lastSync), None)
  {
    var d := ToDocument(s);
    LoadEmbySaved(s, prior);
    var s1 := prior.(serverUrl := s.serverUrl, userId := s.userId, accessToken := s.accessToken, deviceId := s.deviceId);
    LoadSyncSaved(s, s1);
    var s2 := s1.(syncMode := s.syncMode);
    LoadSyncSaved(s, s2);
    var s3 := s2.(lastSync := if s.lastSync.Some? then s.lastSync else prior.lastSync);
    LoadTraktSaved(s, s3);
  }

  /** Without a file, `load` raises and changes nothing. */
  lemma LoadMissingFile(s: ConfigState)
    ensures LoadInto(None, s) == LoadOutcome(s, Some(NotFound))
  {
  }

  /** The settings object. */
  class Config {
    var serverUrl: Option<string>
    var userId: Option<string>
    var accessToken: Option<string>
    var deviceId: Option<string>
    var syncMode: string
    var lastSync: Option<Timestamp>
    var traktClientId: Option<string>
    var traktClientSecret: Option<string>
    var traktAccessToken: Option<string>
    var traktRefreshToken: Option<string>
    var traktExpiresAt: Option<string>

    /** All settings at once. */
    function State(): ConfigState
      reads this
    {
      ConfigState(serverUrl, userId, accessToken, deviceId, syncMode, lastSync,
                  traktClientId, traktClientSecret, traktAccessToken, traktRefreshToken, traktExpiresAt)
    }

    /** `__init__`: incremental sync, nothing else set. */
    constructor ()
      ensures State() == DefaultState
    {
      serverUrl, userId, accessToken, deviceId := None, None, None, None;
      syncMode, lastSync := "incremental", None;
      traktClientId, traktClientSecret, traktAccessToken, traktRefreshToken, traktExpiresAt := None, None, None, None, None;
    }

    /** `set_emby_credentials`: replaces the four Emby settings only. */
    method SetEmbyCredentials(serverUrl: string, userId: string, accessToken: string, deviceId: string)
      modifies this
      ensures State() == old(State()).(serverUrl := Some(serverUrl), userId := Some(userId),
                                       accessToken := Some(accessToken), deviceId := Some(deviceId))
    {
      this.serverUrl := Some(serverUrl);
      this.userId := Some(userId);
      this.accessToken := Some(accessToken);
      this.deviceId := Some(deviceId);
    }

    /** `set_sync_mode`: only `full` and `incremental` are accepted; anything else
        raises and keeps the old mode. */
    method SetSyncMode(mode: string) returns (r: Result<(), ConfigError>)
      modifies this
      ensures r.Ok? <==> mode == "full" || mode == "incremental"
      ensures r.Ok? ==> State() == old(State()).(syncMode := mode)
      ensures r.Err? ==> r.error == InvalidSyncMode(mode) && State() == old(State())
    {
      if mode != "full" && mode != "incremental" {
        return Err(InvalidSyncMode(mode));
      }
      syncMode := mode;
      r := Ok(());
    }

    /** `set_last_sync`. */
    method SetLastSync(timestamp: Timestamp)
      modifies this
      ensures State() == old(State()).(lastSync := Some(timestamp))
    {
      lastSync := Some(timestamp);
    }

    /** `set_trakt_credentials`: replaces the five Trakt settings only. */
    method SetTraktCredentials(clientId: string, clientSecret: string, accessToken: string,
                               refreshToken: string, expiresAt: string)
      modifies this
      ensures State() == old(State()).(traktClientId := Some(clientId), traktClientSecret := Some(clientSecret),
                                       traktAccessToken := Some(accessToken), traktRefreshToken := Some(refreshToken),
                                       traktExpiresAt := Some(expiresAt))
    {
      traktClientId := Some(clientId);
      traktClientSecret := Some(clientSecret);
      traktAccessToken := Some(accessToken);
      traktRefreshToken := Some(refreshToken);
      traktExpiresAt := Some(expiresAt);
    }

    /** `trakt_configured`: an access token and a client id, both non-empty. */
    function TraktConfigured(): (b: bool)
      reads this
      ensures b <==> (traktAccessToken.Some? && traktAccessToken.value != ""
                      && traktClientId.Some? && traktClientId.value != "")
    {
      IsSet(traktAccessToken) && IsSet(traktClientId)
    }

    /** `save`: the document written to `config.yaml`. */
    method Save() returns (d: Document)
      ensures d == ToDocument(State())
    {
      d := ToDocument(State());
    }

    /** Assigns every setting. */
    method Assign(st: ConfigState)
      modifies this
      ensures State() == st
    {
      serverUrl, userId, accessToken, deviceId := st.serverUrl, st.userId, st.accessToken, st.deviceId;
      syncMode, lastSync := st.syncMode, st.lastSync;
      traktClientId, traktClientSecret, traktAccessToken := st.traktClientId, st.traktClientSecret, st.traktAccessToken;
      traktRefreshToken, traktExpiresAt := st.traktRefreshToken, st.traktExpiresAt;
    }

    /** `load`: the settings are assigned section by section; an error leaves the
        sections read before it assigned. */
    method Load(file: Option<Value>) returns (err: Option<ConfigError>)
      modifies this
      ensures State() == LoadInto(file, old(State())).state
      ensures err == LoadInto(file, old(State())).error
    {
      if file.None? {
        return Some(NotFound);
      }
      if !file.value.Dict? {
        return Some(Malformed(""));
      }
      var data := file.value.entries;
      ghost var s0 := State();
      var emby := LoadEmby(data, State());
      if emby.Err? {
        return Some(emby.error);
      }
      Assign(emby.value);
      assert LoadInto(file, s0) == AfterEmby(data, State());
      var mode := LoadSyncMode(data, State());
      if mode.Err? {
        return Some(mode.error);
      }
      Assign(mode.value);
      assert LoadInto(file, s0) == AfterMode(data, State());
      var last := LoadLastSync(data, State());
      if last.Err? {
        return Some(last.error);
      }
      Assign(last.value);
      var trakt := LoadTrakt(data, State());
      if trakt.Err? {
        return Some(trakt.error);
      }
      Assign(trakt.value);
      err := None;
    }
  }
}
