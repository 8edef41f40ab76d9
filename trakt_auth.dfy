/** Trakt's OAuth2 device-code flow (`trakt_auth.py`): asking for a device code,
    polling for the token the user grants, and refreshing it. The HTTP POST is a
    parameter `post` from the JSON payload to the reply. */
module TraktAuth {
  import opened Wrappers
  import opened Documents
  import opened Http

  /** What `response.json()` gives: a JSON object, or a body that does not decode. */
  datatype Body = Unparsable | Json(doc: Document)

  /** The `TraktAuthError`s the flow raises, plus the decode error `request_device_code`
      and `refresh_token` let escape on a 200 reply. */
  datatype AuthError =
    | ConnectFailed
    | InvalidResponse
    | UndecodableBody
    | DeviceCodeFailed(status: int)
    | AuthorizationDenied(reason: string)
    | CodeAlreadyUsed
    | CodeExpired
    | UserDenied
    | PollFailed(status: int)
    | RefreshFailed(status: int)

  /** The `ValueError` of the constructor. */
  datatype InitError = EmptyClientId

  /** The credentials of a Trakt application; never changed after construction. */
  datatype Credentials = Credentials(clientId: string, clientSecret: Option<string>)

  /** `TraktAuth.__init__`: refuses a client id that is `None` or empty. */
  function NewTraktAuth(clientId: Option<string>, clientSecret: Option<string>): (r: Result<Credentials, InitError>)
    ensures r.Ok? <==> IsSet(clientId)
    ensures r.Ok? ==> r.value.clientId == clientId.value && r.value.clientId != ""
    ensures r.Ok? ==> r.value.clientSecret == clientSecret
    ensures r.Err? ==> r.error == EmptyClientId
  {
    if IsSet(clientId) then Ok(Credentials(clientId.value, clientSecret)) else Err(EmptyClientId)
  }

  /** The JSON body of the device-code request. */
  function DeviceCodePayload(auth: Credentials): (p: Document)
    ensures p.Keys == {"client_id"} && p["client_id"] == Str(auth.clientId)
  {
    map["client_id" := Str(auth.clientId)]
  }

  /** Adds the client secret to a payload when it is set and not empty. */
  function WithSecret(p: Document, secret: Option<string>): (q: Document)
    requires "client_secret" !in p
    ensures q.Keys == if IsSet(secret) then p.Keys + {"client_secret"} else p.Keys
    ensures forall k :: k in p ==> q[k] == p[k]
    ensures "client_secret" in q ==> q["client_secret"] == Str(secret.value)
  {
    if IsSet(secret) then p["client_secret" := Str(secret.value)] else p
  }

  /** The JSON body of a token poll. */
  function PollPayload(auth: Credentials, deviceCode: string): (p: Document)
    ensures "client_secret" in p <==> IsSet(auth.clientSecret)
    ensures p.Keys == {"code", "client_id"} + (if IsSet(auth.clientSecret) then {"client_secret"} else {})
    ensures p["code"] == Str(deviceCode) && p["client_id"] == Str(auth.clientId)
    ensures "client_secret" in p ==> p["client_secret"] == Str(auth.clientSecret.value)
  {
    var base := map["code" := Str(deviceCode), "client_id" := Str(auth.clientId)];
    assert "code" in base && "client_id" in base;
    WithSecret(base, auth.clientSecret)
  }

  /** The JSON body of a token refresh. */
  function RefreshPayload(auth: Credentials, refreshToken: string): (p: Document)
    ensures "client_secret" in p <==> IsSet(auth.clientSecret)
    ensures p.Keys == {"refresh_token", "client_id", "grant_type"} + (if IsSet(auth.clientSecret) then {"client_secret"} else {})
    ensures p["refresh_token"] == Str(refreshToken) && p["client_id"] == Str(auth.clientId)
    ensures p["grant_type"] == Str("refresh_token")
    ensures "client_secret" in p ==> p["client_secret"] == Str(auth.clientSecret.value)
  {
    var base := map["refresh_token" := Str(refreshToken), "client_id" := Str(auth.clientId), "grant_type" := Str("refresh_token")];
    assert "refresh_token" in base && "client_id" in base && "grant_type" in base;
    WithSecret(base, auth.clientSecret)
  }

  /** `request_device_code`: the decoded body of a 200 reply; any other status raises
      with that status. */
  function RequestDeviceCode(auth: Credentials, post: Document -> Reply<Body>): (r: Result<Document, AuthError>)
    ensures var reply := post(DeviceCodePayload(auth));
      && (r.Ok? <==> reply.Reply? && reply.status == 200 && reply.body.Json?)
      && (r.Ok? ==> r.value == reply.body.doc)
      && (r == Err(ConnectFailed) <==> reply.NetworkFailure?)
      && (r == Err(UndecodableBody) <==> reply.Reply? && reply.status == 200 && reply.body.Unparsable?)
      && (reply.Reply? && reply.status != 200 ==> r == Err(DeviceCodeFailed(reply.status)))
  {
    match post(DeviceCodePayload(auth))
    case NetworkFailure => Err(ConnectFailed)
    case Reply(status, body) =>
      if status != 200 then Err(DeviceCodeFailed(status))
      else if body.Unparsable? then Err(UndecodableBody)
      else Ok(body.doc)
  }

  /** `data.get("error", "")` of a 400 reply. */
  function ErrorField(doc: Document): Value {
    Get(doc, "error", Str(""))
  }

  /** The 400 error codes that end the flow. */
  predicate IsDenial(error: Value) {
    error == Str("access_denied") || error == Str("expired_token")
  }

  /** What one poll reply means: `Some(tokens)` once authorized, `None` while the user
      has not answered yet (or the poll was rate limited), an error otherwise. */
  function ClassifyPoll(reply: Reply<Body>): (r: Result<Option<Document>, AuthError>)
    ensures (r.Ok? && r.value.Some?) <==> reply.Reply? && reply.status == 200 && reply.body.Json?
    ensures r.Ok? && r.value.Some? ==> r.value.value == reply.body.doc
    ensures r == Ok(None) <==>
      && reply.Reply?
      && (reply.status == 429
          || (reply.status == 400
              && (reply.body.Unparsable? || ErrorField(reply.body.doc) == Str("authorization_pending"))))
    ensures r == Err(ConnectFailed) <==> reply.NetworkFailure?
    ensures r == Err(InvalidResponse) <==> reply.Reply? && reply.status == 200 && reply.body.Unparsable?
    ensures (r.Err? && r.error.AuthorizationDenied?) <==>
      && reply.Reply? && reply.status == 400 && reply.body.Json?
      && IsDenial(ErrorField(reply.body.doc))
    ensures r.Err? && r.error.AuthorizationDenied? ==> Str(r.error.reason) == ErrorField(reply.body.doc)
    ensures r == Err(CodeAlreadyUsed) <==> reply.Reply? && reply.status == 409
    ensures r == Err(CodeExpired) <==> reply.Reply? && reply.status == 410
    ensures r == Err(UserDenied) <==> reply.Reply? && reply.status == 418
    ensures (r.Err? && r.error.PollFailed?) <==>
      && reply.Reply? && reply.status !in {200, 409, 410, 418, 429}
      && (reply.status == 400 ==>
            && reply.body.Json?
            && ErrorField(reply.body.doc) != Str("authorization_pending")
            && !IsDenial(ErrorField(reply.body.doc)))
    ensures r.Err? && r.error.PollFailed? ==> r.error.status == reply.status
  {
    match reply
    case NetworkFailure => Err(ConnectFailed)
    case Reply(status, body) =>
      if status == 200 then
        if body.Unparsable? then Err(InvalidResponse) else Ok(Some(body.doc))
      else if status == 400 && body.Unparsable? then Ok(None)
      else if status == 400 && ErrorField(body.doc) == Str("authorization_pending") then Ok(None)
      else if status == 400 && IsDenial(ErrorField(body.doc)) then Err(AuthorizationDenied(ErrorField(body.doc).s))
      else if status == 409 then Err(CodeAlreadyUsed)
      else if status == 410 then Err(CodeExpired)
      else if status == 418 then Err(UserDenied)
      else if status == 429 then Ok(None)
      else Err(PollFailed(status))
  }

  /** `poll_for_token`: one poll with the device code, sending the secret when set. */
  function PollForToken(auth: Credentials, deviceCode: string, post: Document -> Reply<Body>): (r: Result<Option<Document>, AuthError>)
    ensures var reply := post(PollPayload(auth, deviceCode));
      && ((r.Ok? && r.value.Some?) <==> reply.Reply? && reply.status == 200 && reply.body.Json?)
      && (r.Ok? && r.value.Some? ==> r.value.value == reply.body.doc)
      && (r == Ok(None) ==> reply.Reply? && reply.status in {400, 429})
      && (r == Err(ConnectFailed) <==> reply.NetworkFailure?)
  {
    ClassifyPoll(post(PollPayload(auth, deviceCode)))
  }

  /** `refresh_token`: the decoded body of a 200 reply; any other status raises. */
  function RefreshToken(auth: Credentials, refreshToken: string, post: Document -> Reply<Body>): (r: Result<Document, AuthError>)
    ensures var reply := post(RefreshPayload(auth, refreshToken));
      && (r.Ok? <==> reply.Reply? && reply.status == 200 && reply.body.Json?)
      && (r.Ok? ==> r.value == reply.body.doc)
      && (r == Err(ConnectFailed) <==> reply.NetworkFailure?)
      && (r == Err(UndecodableBody) <==> reply.Reply? && reply.status == 200 && reply.body.Unparsable?)
      && (reply.Reply? && reply.status != 200 ==> r == Err(RefreshFailed(reply.status)))
  {
    match post(RefreshPayload(auth, refreshToken))
    case NetworkFailure => Err(ConnectFailed)
    case Reply(status, body) =>
      if status != 200 then Err(RefreshFailed(status))
      else if body.Unparsable? then Err(UndecodableBody)
      else Ok(body.doc)
  }
}
