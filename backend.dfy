/** The backend: the OAuth 2.0 authorization-code flow with PKCE (section 4.1
    of RFC 6749, RFC 7636) over an in-memory map of pending flows, the token
    store with refresh on expiry (section 6 of RFC 6749), the gateway to the
    Airtable REST API, and the form-configuration store. */
module Backend {
  import opened Common
  import opened Schema
  import Base64Url

  /** The settings read from the environment. */
  datatype Settings = Settings(
    clientId: string,
    redirectUri: string,
    scope: string,
    airtableUrl: string,
    frontendUrl: string)

  /** A pending authorization, stored under its `state` value. */
  datatype FlowState = FlowState(codeVerifier: string, userId: string)

  /** The token endpoint's answer; absent members are `None`. */
  datatype TokenData = TokenData(
    accessToken: Option<string>,
    refreshToken: Option<string>,
    tokenType: Option<string>,
    scope: Option<string>,
    expiresIn: int)

  /** A stored token record; times are milliseconds since the epoch. */
  datatype TokenDoc = TokenDoc(
    userId: string,
    accessToken: Option<string>,
    refreshToken: Option<string>,
    tokenType: Option<string>,
    scope: Option<string>,
    expiresIn: int,
    createdAt: int,
    expiresAt: Option<int>)

  /** The record `storeTokens` writes for `userId` at time `now`: built from the
      new answer alone, never merged with an earlier record. */
  function NewTokenDoc(userId: string, d: TokenData, now: int): TokenDoc {
    TokenDoc(userId, d.accessToken, d.refreshToken, d.tokenType, d.scope, d.expiresIn,
             now, Some(now + d.expiresIn * 1000))
  }

  /** A record has expired once it carries an expiry time and the clock has reached it. */
  predicate Expired(doc: TokenDoc, now: int) {
    doc.expiresAt.Some? && now >= doc.expiresAt.value
  }

  /** A freshly stored record expires exactly `expires_in` seconds after it was stored. */
  lemma NewRecordExpiry(userId: string, d: TokenData, now: int, t: int)
    ensures NewTokenDoc(userId, d, now).expiresAt == Some(now + d.expiresIn * 1000)
    ensures Expired(NewTokenDoc(userId, d, now), t) <==> t >= now + d.expiresIn * 1000
    ensures d.expiresIn > 0 ==> !Expired(NewTokenDoc(userId, d, now), now)
  {
  }

  /** A URL: its base and its query parameters in the order they are set. */
  datatype Url = Url(base: string, query: seq<(string, string)>)

  /** An HTTP reply: a 200 JSON body, an error status with a message, or a redirect
      (Express's `redirect(url)` always answers 302, whatever status was set before). */
  datatype Reply<T> = Respond(body: T) | Fail(status: int, message: string) | RedirectTo(location: Url)

  /** A call to the provider's token endpoint. */
  datatype TokenRequest = TokenRequest(
    clientId: string,
    codeVerifier: string,
    redirectUri: string,
    code: Option<string>,
    grantType: string)

  /** A refresh grant sent to the provider's token endpoint. */
  datatype RefreshRequest = RefreshRequest(clientId: string, grantType: string, refreshToken: Option<string>)

  datatype Verb = Get | Post

  /** A call to the Airtable REST API; `bearer` is the access token sent. */
  datatype ApiRequest = ApiRequest(verb: Verb, url: string, bearer: Option<string>, body: Option<Json>)

  /** What Airtable answers to an API call. */
  datatype Upstream =
    | Delivered(data: Json)
    | Rejected(status: int, message: string)
    | Unreachable(message: string)

  /** Why a gateway call throws; `status` is the upstream response's status, if any. */
  datatype GatewayError =
    | NoTokens
    | RefreshFailed
    | UpstreamFailed(status: Option<int>, message: string)

  const ApiRoot: string := "https://api.airtable.com/v0"

  /** The outcome of the API call itself. */
  function Deliver(u: Upstream): Result<Json, GatewayError> {
    match u
    case Delivered(data) => Ok(data)
    case Rejected(status, message) => Err(UpstreamFailed(Some(status), message))
    case Unreachable(message) => Err(UpstreamFailed(None, message))
  }

  /** The record the gateway authenticates with: the stored one while it is
      valid, the refreshed one once it has expired, or the reason it has none. */
  function Credentials(stored: Option<TokenDoc>, userId: string, now: int, refreshReply: Option<TokenData>): (r: Result<TokenDoc, GatewayError>)
    ensures stored.None? ==> r == Err(NoTokens)
    ensures stored.Some? && !Expired(stored.value, now) ==> r == Ok(stored.value)
    ensures stored.Some? && Expired(stored.value, now) && refreshReply.None? ==> r == Err(RefreshFailed)
    ensures stored.Some? && Expired(stored.value, now) && refreshReply.Some? ==>
      r == Ok(NewTokenDoc(userId, refreshReply.value, now))
  {
    match stored
    case None => Err(NoTokens)
    case Some(doc) =>
      if !Expired(doc, now) then Ok(doc)
      else match refreshReply
        case None => Err(RefreshFailed)
        case Some(d) => Ok(NewTokenDoc(userId, d, now))
  }

  /** The gateway never authenticates with an expired record, provided the
      refresh answer grants a positive lifetime: refreshing happens exactly when
      the stored one has expired. */
  lemma CredentialsNeverExpired(stored: Option<TokenDoc>, userId: string, now: int, refreshReply: Option<TokenData>)
    requires refreshReply.Some? ==> refreshReply.value.expiresIn > 0
    ensures Credentials(stored, userId, now, refreshReply).Ok? ==>
      !Expired(Credentials(stored, userId, now, refreshReply).value, now)
  {
    if stored.Some? && Expired(stored.value, now) && refreshReply.Some? {
      NewRecordExpiry(userId, refreshReply.value, now, now);
    }
  }

  /** The record stored for a user, if any. */
  function StoredFor(tokens: map<string, TokenDoc>, userId: string): (r: Option<TokenDoc>)
    ensures r.Some? <==> userId in tokens
    ensures r.Some? ==> r.value == tokens[userId]
  {
    if userId in tokens then Some(tokens[userId]) else None
  }

  /** The token store after one gateway call: only the caller's record can
      change, and it changes exactly when an expired record was refreshed. */
  function TokensAfter(tokens: map<string, TokenDoc>, userId: string, now: int, refreshReply: Option<TokenData>)
    : (r: map<string, TokenDoc>)
    ensures r.Keys == tokens.Keys
    ensures forall u | u in tokens && u != userId :: r[u] == tokens[u]
    ensures userId in tokens && Expired(tokens[userId], now) && refreshReply.Some? ==>
      r[userId] == NewTokenDoc(userId, refreshReply.value, now)
    ensures !(userId in tokens && Expired(tokens[userId], now) && refreshReply.Some?) ==> r == tokens
  {
    if userId in tokens && Expired(tokens[userId], now) && refreshReply.Some?
    then tokens[userId := NewTokenDoc(userId, refreshReply.value, now)]
    else tokens
  }

  /** The gateway's result: its own failure, or Airtable's answer. */
  function GatewayResult(c: Result<TokenDoc, GatewayError>, upstream: Upstream): Result<Json, GatewayError> {
    match c
    case Err(e) => Err(e)
    case Ok(_) => Deliver(upstream)
  }

  /** The status of an error reply: the upstream response's status when there
      is one and it is not 0, and 500 otherwise. */
  function FailureStatus(e: GatewayError): (r: int)
    ensures r != 0
    ensures e.UpstreamFailed? && e.status.Some? && e.status.value != 0 ==> r == e.status.value
    ensures !(e.UpstreamFailed? && e.status.Some?) ==> r == 500
  {
    match e
    case UpstreamFailed(Some(s), _) => if s != 0 then s else 500
    case _ => 500
  }

  function FailureMessage(e: GatewayError): string {
    match e
    case NoTokens => "No tokens found for user"
    case RefreshFailed => "Failed to refresh expired token"
    case UpstreamFailed(_, m) => m
  }

  /** The reply of the pass-through routes (bases, tables). */
  function PassThroughReply(out: Result<Json, GatewayError>): (r: Reply<Json>)
    ensures out.Ok? ==> r == Respond(out.value)
    ensures out.Err? ==> r.Fail? && r.status == FailureStatus(out.error) && r.message == FailureMessage(out.error)
    ensures out.Err? && out.error.UpstreamFailed? && out.error.status.Some? && out.error.status.value != 0 ==>
      r.Fail? && r.status == out.error.status.value
  {
    match out
    case Ok(data) => Respond(data)
    case Err(e) => Fail(FailureStatus(e), FailureMessage(e))
  }

  /** The outcome of searching the base's tables by id: a table, none, or a thrown `TypeError`. */
  datatype TableLookup = FoundTable(table: Json) | NoTable | TypeError

  /** An array element is an object whose `id` member is the string `tableId`. */
  predicate HasId(t: Json, tableId: string) {
    t.JObj? && "id" in t.members && t.members["id"] == JStr(tableId)
  }

  /** Index `i` holds the first table with the id, and no `null` comes before it. */
  ghost predicate FirstMatchAt(items: seq<Json>, tableId: string, i: int) {
    0 <= i < |items| && HasId(items[i], tableId) &&
    forall j :: 0 <= j < i ==> items[j] != JNull && !HasId(items[j], tableId)
  }

  /** Index `i` holds a `null` that the search reaches: no table before it has the id. */
  ghost predicate NullReachedAt(items: seq<Json>, tableId: string, i: int) {
    0 <= i < |items| && items[i] == JNull &&
    forall j :: 0 <= j < i ==> !HasId(items[j], tableId)
  }

  /** Past a head that is neither `null` nor a match, indices shift by one. */
  lemma ShiftPastHead(items: seq<Json>, tableId: string, k: int)
    requires items != [] && items[0] != JNull && !HasId(items[0], tableId)
    ensures FirstMatchAt(items[1..], tableId, k) <==> FirstMatchAt(items, tableId, k + 1)
    ensures NullReachedAt(items[1..], tableId, k) <==> NullReachedAt(items, tableId, k + 1)
  {
    assert forall j :: 0 <= j < |items[1..]| ==> items[1..][j] == items[j + 1];
    if FirstMatchAt(items, tableId, k + 1) {
      assert forall j :: 0 <= j < k ==> items[1..][j] != JNull && !HasId(items[1..][j], tableId) by {
        forall j | 0 <= j < k ensures items[1..][j] != JNull && !HasId(items[1..][j], tableId) {
          assert items[1..][j] == items[j + 1];
        }
      }
    }
    if NullReachedAt(items, tableId, k + 1) {
      assert forall j :: 0 <= j < k ==> !HasId(items[1..][j], tableId) by {
        forall j | 0 <= j < k ensures !HasId(items[1..][j], tableId) {
          assert items[1..][j] == items[j + 1];
        }
      }
    }
  }

  /** The search over the array; reading `.id` of `null` throws. It finds the
      first match when no `null` precedes it, throws when a `null` is reached
      before any match, and finds nothing when there is neither. */
  function FindIn(items: seq<Json>, tableId: string): (r: TableLookup)
    ensures r.FoundTable? ==> exists i :: FirstMatchAt(items, tableId, i) && items[i] == r.table
    ensures r.NoTable? <==> forall i :: 0 <= i < |items| ==> items[i] != JNull && !HasId(items[i], tableId)
    ensures r.TypeError? <==> exists i :: NullReachedAt(items, tableId, i)
    decreases |items|
  {
    if items == [] then NoTable
    else if items[0] == JNull then
      assert NullReachedAt(items, tableId, 0);
      TypeError
    else if HasId(items[0], tableId) then
      assert FirstMatchAt(items, tableId, 0);
      assert !exists i :: NullReachedAt(items, tableId, i) by {
        forall i | 0 <= i < |items| && items[i] == JNull ensures !NullReachedAt(items, tableId, i) {
          assert i > 0;
        }
      }
      FoundTable(items[0])
    else
      var r := FindIn(items[1..], tableId);
      assert forall i :: 0 < i < |items| ==> items[i] == items[1..][i - 1];
      assert r.FoundTable? ==> exists i :: FirstMatchAt(items, tableId, i) && items[i] == r.table by {
        if r.FoundTable? {
          var k :| FirstMatchAt(items[1..], tableId, k) && items[1..][k] == r.table;
          ShiftPastHead(items, tableId, k);
          assert items[k + 1] == r.table;
        }
      }
      assert r.TypeError? <==> exists i :: NullReachedAt(items, tableId, i) by {
        if r.TypeError? {
          var k :| NullReachedAt(items[1..], tableId, k);
          ShiftPastHead(items, tableId, k);
        }
        if exists i :: NullReachedAt(items, tableId, i) {
          var i :| NullReachedAt(items, tableId, i);
          ShiftPastHead(items, tableId, i - 1);
        }
      }
      r
  }

  /** A table whose id matches, with no `null` before it, is the one found:
      `[match, null]` yields the match. */
  lemma {:induction false} FindInFindsFirstMatch(items: seq<Json>, tableId: string, i: int)
    requires FirstMatchAt(items, tableId, i)
    ensures FindIn(items, tableId) == FoundTable(items[i])
  {
  }

  /** The table-metadata lookup of the fields route: a response without a
      `tables` array makes `.find` throw. */
  function FindTable(data: Json, tableId: string): (r: TableLookup)
    ensures !(data.JObj? && "tables" in data.members && data.members["tables"].JArr?) ==> r == TypeError
    ensures data.JObj? && "tables" in data.members && data.members["tables"].JArr? ==>
      r == FindIn(data.members["tables"].items, tableId)
  {
    if data.JObj? && "tables" in data.members && data.members["tables"].JArr?
    then FindIn(data.members["tables"].items, tableId)
    else TypeError
  }

  /** The message of a `TypeError`; its exact words are the JavaScript engine's. */
  const TypeErrorMessage: string := "TypeError"

  /** The reply of the fields route. */
  function FieldsReply(out: Result<Json, GatewayError>, tableId: string): (r: Reply<Json>)
    ensures out.Err? ==> r == Fail(FailureStatus(out.error), FailureMessage(out.error))
    ensures out.Ok? && FindTable(out.value, tableId).FoundTable? ==> r == Respond(FindTable(out.value, tableId).table)
    ensures out.Ok? && FindTable(out.value, tableId).NoTable? ==> r == Fail(404, "Table not found")
    ensures out.Ok? && FindTable(out.value, tableId).TypeError? ==> r == Fail(500, TypeErrorMessage)
  {
    match out
    case Err(e) => Fail(FailureStatus(e), FailureMessage(e))
    case Ok(data) =>
      match FindTable(data, tableId)
      case FoundTable(t) => Respond(t)
      case NoTable => Fail(404, "Table not found")
      case TypeError => Fail(500, TypeErrorMessage)
  }

  /** The record payload posted to Airtable: the submitted body under `fields`. */
  function Wrap(body: Json): (r: Json)
    ensures r.JObj? && r.members.Keys == {"fields"} && r.members["fields"] == body
  {
    JObj(map["fields" := body])
  }

  /** The reply of the submit route. */
  function SubmitReply(out: Result<Json, GatewayError>): (r: Reply<Json>)
    ensures out.Ok? ==> r == Respond(JObj(map["success" := JBool(true), "record" := out.value]))
    ensures out.Err? ==> r == Fail(FailureStatus(out.error), "Failed to submit to Airtable.")
  {
    match out
    case Ok(record) => Respond(JObj(map["success" := JBool(true), "record" := record]))
    case Err(e) => Fail(FailureStatus(e), "Failed to submit to Airtable.")
  }

  /** The unique key of a form configuration. */
  datatype ConfigKey = ConfigKey(userId: string, baseId: string, tableId: string)

  /** A stored form configuration. */
  datatype FormConfig = FormConfig(
    userId: string,
    baseId: string,
    tableId: string,
    fields: seq<FieldSpec>,
    tableName: string,
    updatedAt: int)

  function KeyOf(c: FormConfig): ConfigKey {
    ConfigKey(c.userId, c.baseId, c.tableId)
  }

  /** The list view of a configuration: it has no `fields`. */
  datatype Summary = Summary(tableName: string, baseId: string, tableId: string)

  function SummaryOf(c: FormConfig): Summary {
    Summary(c.tableName, c.baseId, c.tableId)
  }

  /** The authorization URL of the provider, with the query set in the handler's order. */
  function AuthorizeUrl(s: Settings, state: string, challenge: string): Url {
    Url(s.airtableUrl + "/oauth2/v1/authorize",
        [("code_challenge", challenge), ("code_challenge_method", "S256"), ("state", state),
         ("client_id", s.clientId), ("redirect_uri", s.redirectUri), ("response_type", "code"),
         ("scope", s.scope)])
  }

  /** The `user_id` parameter is missing or empty. */
  predicate IsBlank(p: Option<string>) {
    p.None? || p.value == ""
  }

  /** The process state of the backend: the pending flows and the two collections. */
  class Server {
    const settings: Settings
    var authorizationCache: map<string, FlowState>
    var tokens: map<string, TokenDoc>
    var formConfigs: map<ConfigKey, FormConfig>

    /** Each stored document sits under its own key. */
    ghost predicate Valid()
      reads this
    {
      && (forall u | u in tokens :: tokens[u].userId == u)
      && (forall k | k in formConfigs :: KeyOf(formConfigs[k]) == k)
    }

    /** The pending-flow map starts empty on every start; the two collections
        hold whatever the database already stores, keyed consistently. */
    constructor (settings: Settings, tokens0: map<string, TokenDoc>, configs0: map<ConfigKey, FormConfig>)
      requires forall u | u in tokens0 :: tokens0[u].userId == u
      requires forall k | k in configs0 :: KeyOf(configs0[k]) == k
      ensures Valid() && this.settings == settings
      ensures authorizationCache == map[] && tokens == tokens0 && formConfigs == configs0
    {
      this.settings := settings;
      authorizationCache, tokens, formConfigs := map[], tokens0, configs0;
    }

    /** The user's token record, if the collection holds one. */
    function GetTokens(userId: string): (r: Option<TokenDoc>)
      reads this
      ensures r.Some? <==> userId in tokens
      ensures r.Some? ==> r.value == tokens[userId]
    {
      StoredFor(tokens, userId)
    }

    /** `storeTokens`: the user's whole record is replaced by one built from `data`. */
    method StoreTokens(userId: string, data: TokenData, now: int) returns (doc: TokenDoc)
      requires Valid()
      modifies this`tokens
      ensures Valid()
      ensures doc == NewTokenDoc(userId, data, now)
      ensures tokens == old(tokens)[userId := doc]
    {
      doc := TokenDoc(userId, data.accessToken, data.refreshToken, data.tokenType, data.scope,
                      data.expiresIn, now, Some(now + data.expiresIn * 1000));
      tokens := tokens[userId := doc];
    }

    /** `refreshTokenForUser`: `reply` is what the token endpoint answered to the
        refresh grant, `None` when the call (or storing its result) failed. */
    method RefreshTokenForUser(userId: string, refreshToken: Option<string>, reply: Option<TokenData>, now: int)
      returns (doc: Option<TokenDoc>, request: RefreshRequest)
      requires Valid()
      modifies this`tokens
      ensures Valid()
      ensures request == RefreshRequest(settings.clientId, "refresh_token", refreshToken)
      ensures reply.None? ==> doc.None? && tokens == old(tokens)
      ensures reply.Some? ==> (doc == Some(NewTokenDoc(userId, reply.value, now)) &&
        tokens == old(tokens)[userId := doc.value])
    {
      request := RefreshRequest(settings.clientId, "refresh_token", refreshToken);
      if reply.None? {
        return None, request;
      }
      var stored := StoreTokens(userId, reply.value, now);
      doc := Some(stored);
    }

    /** `makeAirtableRequest`: refresh first when the stored token has expired,
        then call the API with the token in force. `refreshReply` answers the
        refresh, `upstream` the API call. */
    method MakeAirtableRequest(userId: string, verb: Verb, endpoint: string, data: Option<Json>, now: int,
                               refreshReply: Option<TokenData>, upstream: Upstream)
      returns (r: Result<Json, GatewayError>, sent: Option<ApiRequest>, refresh: Option<RefreshRequest>)
      requires Valid()
      modifies this`tokens
      ensures Valid()
      ensures refresh.Some? <==> userId in old(tokens) && Expired(old(tokens)[userId], now)
      ensures refresh.Some? ==>
        refresh.value == RefreshRequest(settings.clientId, "refresh_token", old(tokens)[userId].refreshToken)
      ensures var c := Credentials(StoredFor(old(tokens), userId), userId, now, refreshReply);
        && r == GatewayResult(c, upstream)
        && (c.Err? ==> sent.None?)
        && (c.Ok? ==> sent == Some(ApiRequest(verb, ApiRoot + endpoint, c.value.accessToken, data)))
      ensures userId in old(tokens) && Expired(old(tokens)[userId], now) && refreshReply.Some?
        ==> tokens == old(tokens)[userId := NewTokenDoc(userId, refreshReply.value, now)]
      ensures !(userId in old(tokens) && Expired(old(tokens)[userId], now) && refreshReply.Some?)
        ==> tokens == old(tokens)
      ensures sent.Some? ==> userId in tokens && sent.value.bearer == tokens[userId].accessToken
      ensures tokens == TokensAfter(old(tokens), userId, now, refreshReply)
    {
      var stored := GetTokens(userId);
      if stored.None? {
        return Err(NoTokens), None, None;
      }
      var doc := stored.value;
      refresh := None;
      if doc.expiresAt.Some? && now >= doc.expiresAt.value {
        var refreshed, request := RefreshTokenForUser(userId, doc.refreshToken, refreshReply, now);
        refresh := Some(request);
        if refreshed.None? {
          return Err(RefreshFailed), None, refresh;
        }
        doc := refreshed.value;
      }
      sent := Some(ApiRequest(verb, ApiRoot + endpoint, doc.accessToken, data));
      r := Deliver(upstream);
    }

    /** `GET /auth/airtable`: without a user id, 400 and nothing stored;
        otherwise exactly one pending flow is added under the new `state`.
        `state` and `codeVerifier` are the random values, `sha256Base64` the digest. */
    method BeginAuthorization(userId: Option<string>, state: string, codeVerifier: string,
                              sha256Base64: string -> string)
      returns (reply: Reply<Json>)
      requires Valid()
      modifies this`authorizationCache
      ensures Valid()
      ensures IsBlank(userId) ==>
        reply == Fail(400, "user_id is required") && authorizationCache == old(authorizationCache)
      ensures !IsBlank(userId) ==>
        && authorizationCache == old(authorizationCache)[state := FlowState(codeVerifier, userId.value)]
        && reply == RedirectTo(AuthorizeUrl(settings, state, Base64Url.CodeChallenge(sha256Base64, codeVerifier)))
    {
      if userId.None? || userId.value == "" {
        return Fail(400, "user_id is required");
      }
      var codeChallenge := Base64Url.ToBase64Url(sha256Base64(codeVerifier));
      authorizationCache := authorizationCache[state := FlowState(codeVerifier, userId.value)];
      reply := RedirectTo(AuthorizeUrl(settings, state, codeChallenge));
    }

    /** `GET /auth/callback`. An unknown `state` gets 400 and changes nothing. A
        known one is consumed before anything else; a provider error then
        redirects without a token exchange; otherwise the code is exchanged with
        the stored verifier (`exchangeReply` answers it) and the tokens stored. */
    method Callback(state: Option<string>, code: Option<string>, queryError: Option<string>,
                    errorDescription: Option<string>, exchangeReply: Option<TokenData>, now: int)
      returns (reply: Reply<Json>, exchange: Option<TokenRequest>)
      requires Valid()
      modifies this`authorizationCache, this`tokens
      ensures Valid()
      ensures JsString(state) !in old(authorizationCache) ==>
        && reply == Fail(400, "Invalid state parameter") && exchange.None?
        && authorizationCache == old(authorizationCache) && tokens == old(tokens)
      ensures JsString(state) in old(authorizationCache) ==>
        authorizationCache == old(authorizationCache) - {JsString(state)}
      ensures JsString(state) in old(authorizationCache) && Truthy(if queryError.Some? then Str(queryError.value) else Absent) ==>
        && exchange.None? && tokens == old(tokens)
        && reply == RedirectTo(Url(settings.frontendUrl + "/", [("error", JsString(errorDescription))]))
      ensures JsString(state) in old(authorizationCache) && !Truthy(if queryError.Some? then Str(queryError.value) else Absent) ==>
        var flow := old(authorizationCache)[JsString(state)];
        && exchange == Some(TokenRequest(settings.clientId, flow.codeVerifier, settings.redirectUri, code, "authorization_code"))
        && (exchangeReply.None? ==>
              tokens == old(tokens) &&
              reply == RedirectTo(Url(settings.frontendUrl + "/", [("error", "token_exchange_failed")])))
        && (exchangeReply.Some? ==>
              tokens == old(tokens)[flow.userId := NewTokenDoc(flow.userId, exchangeReply.value, now)] &&
              reply == RedirectTo(Url(settings.frontendUrl + "/builder", [("user_id", flow.userId)])))
    {
      var key := JsString(state);
      if key !in authorizationCache {
        return Fail(400, "Invalid state parameter"), None;
      }
      var cached := authorizationCache[key];
      authorizationCache := authorizationCache - {key};
      if queryError.Some? && queryError.value != "" {
        return RedirectTo(Url(settings.frontendUrl + "/", [("error", JsString(errorDescription))])), None;
      }
      exchange := Some(TokenRequest(settings.clientId, cached.codeVerifier, settings.redirectUri, code, "authorization_code"));
      if exchangeReply.None? {
        return RedirectTo(Url(settings.frontendUrl + "/", [("error", "token_exchange_failed")])), exchange;
      }
      var _ := StoreTokens(cached.userId, exchangeReply.value, now);
      reply := RedirectTo(Url(settings.frontendUrl + "/builder", [("user_id", cached.userId)]));
    }

    /** `GET /api/bases/:userId`. */
    method GetBases(userId: string, now: int, refreshReply: Option<TokenData>, upstream: Upstream)
      returns (reply: Reply<Json>, sent: Option<ApiRequest>)
      requires Valid()
      modifies this`tokens
      ensures Valid()
      ensures var c := Credentials(StoredFor(old(tokens), userId), userId, now, refreshReply);
        && reply == PassThroughReply(GatewayResult(c, upstream))
        && (c.Ok? <==> sent.Some?)
        && (c.Ok? ==> sent.value == ApiRequest(Get, ApiRoot + "/meta/bases", c.value.accessToken, None))
      ensures tokens == TokensAfter(old(tokens), userId, now, refreshReply)
    {
      var out, refresh;
      out, sent, refresh := MakeAirtableRequest(userId, Get, "/meta/bases", None, now, refreshReply, upstream);
      reply := PassThroughReply(out);
    }

    /** `GET /api/tables/:userId/:baseId`. */
    method GetTables(userId: string, baseId: string, now: int, refreshReply: Option<TokenData>, upstream: Upstream)
      returns (reply: Reply<Json>, sent: Option<ApiRequest>)
      requires Valid()
      modifies this`tokens
      ensures Valid()
      ensures var c := Credentials(StoredFor(old(tokens), userId), userId, now, refreshReply);
        && reply == PassThroughReply(GatewayResult(c, upstream))
        && (c.Ok? <==> sent.Some?)
        && (c.Ok? ==> sent.value == ApiRequest(Get, ApiRoot + "/meta/bases/" + baseId + "/tables", c.value.accessToken, None))
      ensures tokens == TokensAfter(old(tokens), userId, now, refreshReply)
    {
      var out, refresh;
      out, sent, refresh := MakeAirtableRequest(userId, Get, "/meta/bases/" + baseId + "/tables", None, now, refreshReply, upstream);
      reply := PassThroughReply(out);
    }

    /** `GET /api/fields/:userId/:baseId/:tableId`: the table with that id out of
        the base's table list, or 404. */
    method GetFields(userId: string, baseId: string, tableId: string, now: int,
                     refreshReply: Option<TokenData>, upstream: Upstream)
      returns (reply: Reply<Json>, sent: Option<ApiRequest>)
      requires Valid()
      modifies this`tokens
      ensures Valid()
      ensures var c := Credentials(StoredFor(old(tokens), userId), userId, now, refreshReply);
        && reply == FieldsReply(GatewayResult(c, upstream), tableId)
        && (c.Ok? <==> sent.Some?)
        && (c.Ok? ==> sent.value == ApiRequest(Get, ApiRoot + "/meta/bases/" + baseId + "/tables", c.value.accessToken, None))
      ensures tokens == TokensAfter(old(tokens), userId, now, refreshReply)
    {
      var out, refresh;
      out, sent, refresh := MakeAirtableRequest(userId, Get, "/meta/bases/" + baseId + "/tables", None, now, refreshReply, upstream);
      reply := FieldsReply(out, tableId);
    }

    /** `POST /api/submit/:userId/:baseId/:tableId`: the body, wrapped as
        `{fields: body}`, is posted to `/${baseId}/${tableId}`. */
    method Submit(userId: string, baseId: string, tableId: string, body: Json, now: int,
                  refreshReply: Option<TokenData>, upstream: Upstream)
      returns (reply: Reply<Json>, sent: Option<ApiRequest>)
      requires Valid()
      modifies this`tokens
      ensures Valid()
      ensures var c := Credentials(StoredFor(old(tokens), userId), userId, now, refreshReply);
        && reply == SubmitReply(GatewayResult(c, upstream))
        && (c.Ok? <==> sent.Some?)
        && (c.Ok? ==> sent.value == ApiRequest(Post, ApiRoot + "/" + baseId + "/" + tableId, c.value.accessToken, Some(Wrap(body))))
      ensures tokens == TokensAfter(old(tokens), userId, now, refreshReply)
    {
      var out, refresh;
      out, sent, refresh := MakeAirtableRequest(userId, Post, "/" + baseId + "/" + tableId, Some(Wrap(body)), now, refreshReply, upstream);
      reply := SubmitReply(out);
    }

    /** `POST /api/form-config`: the whole document under the triple key is replaced. */
    method SaveFormConfig(body: FormConfigBody, now: int) returns (reply: Reply<Json>)
      requires Valid()
      modifies this`formConfigs
      ensures Valid()
      ensures formConfigs == old(formConfigs)[ConfigKey(body.userId, body.baseId, body.tableId) :=
        FormConfig(body.userId, body.baseId, body.tableId, body.fields, body.tableName, now)]
      ensures reply == Respond(JObj(map["success" := JBool(true), "message" := JStr("Configuration saved.")]))
    {
      var doc := FormConfig(body.userId, body.baseId, body.tableId, body.fields, body.tableName, now);
      formConfigs := formConfigs[KeyOf(doc) := doc];
      reply := Respond(JObj(map["success" := JBool(true), "message" := JStr("Configuration saved.")]));
    }

    /** `GET /api/form-configs/:userId`: the summaries of that user's
        configurations, and no one else's (the store returns them in no set order). */
    function ListFormConfigs(userId: string): (r: set<Summary>)
      reads this
      requires Valid()
      ensures forall k | k in formConfigs && k.userId == userId ::
        Summary(formConfigs[k].tableName, k.baseId, k.tableId) in r
      ensures forall s | s in r :: exists k :: (k in formConfigs && k.userId == userId &&
        s == Summary(formConfigs[k].tableName, k.baseId, k.tableId))
    {
      set k | k in formConfigs && formConfigs[k].userId == userId :: SummaryOf(formConfigs[k])
    }

    /** `GET /api/form-config/:userId/:baseId/:tableId`: the stored document, or 404. */
    function GetFormConfig(userId: string, baseId: string, tableId: string): (r: Reply<FormConfig>)
      reads this
      requires Valid()
      ensures ConfigKey(userId, baseId, tableId) !in formConfigs ==> r == Fail(404, "Configuration not found.")
      ensures ConfigKey(userId, baseId, tableId) in formConfigs ==>
        r.Respond? && r.body.userId == userId && r.body.baseId == baseId && r.body.tableId == tableId &&
        r.body == formConfigs[ConfigKey(userId, baseId, tableId)]
    {
      var key := ConfigKey(userId, baseId, tableId);
      if key in formConfigs then Respond(formConfigs[key]) else Fail(404, "Configuration not found.")
    }
  }

  /** A `state` is single-use: after a callback has consumed it, the same
      callback is rejected with 400 and changes nothing. */
  method ReplayIsRejected(s: Server, userId: string, state: string, codeVerifier: string,
                          sha256Base64: string -> string, code: Option<string>,
                          exchangeReply: Option<TokenData>, now: int)
    returns (first: Reply<Json>, second: Reply<Json>)
    requires s.Valid() && userId != ""
    modifies s
    ensures s.Valid()
    ensures exchangeReply.Some? ==>
      first == RedirectTo(Url(s.settings.frontendUrl + "/builder", [("user_id", userId)])) &&
      s.tokens == old(s.tokens)[userId := NewTokenDoc(userId, exchangeReply.value, now)]
    ensures second == Fail(400, "Invalid state parameter")
    ensures s.authorizationCache == old(s.authorizationCache) - {state}
  {
    var _ := s.BeginAuthorization(Some(userId), state, codeVerifier, sha256Base64);
    var exchange;
    first, exchange := s.Callback(Some(state), code, None, None, exchangeReply, now);
    second, exchange := s.Callback(Some(state), code, None, None, exchangeReply, now);
  }

  /** Saving twice under the same key keeps only the second document: no merge. */
  method ResaveReplaces(s: Server, first: FormConfigBody, second: FormConfigBody, t1: int, t2: int)
    returns (r: Reply<FormConfig>)
    requires s.Valid()
    requires first.userId == second.userId && first.baseId == second.baseId && first.tableId == second.tableId
    modifies s
    ensures r == Respond(FormConfig(second.userId, second.baseId, second.tableId, second.fields, second.tableName, t2))
  {
    var _ := s.SaveFormConfig(first, t1);
    var _ := s.SaveFormConfig(second, t2);
    r := s.GetFormConfig(second.userId, second.baseId, second.tableId);
  }

  /** The keys a property lookup on a plain JavaScript object `{}` finds on its
      prototype, `Object.prototype`. */
  const InheritedKeys: set<string> := {
    "constructor", "__proto__", "hasOwnProperty", "isPrototypeOf", "propertyIsEnumerable",
    "toLocaleString", "toString", "valueOf", "__defineGetter__", "__defineSetter__",
    "__lookupGetter__", "__lookupSetter__"}

  /** The callback's `if (!cached)` test as written: `authorizationCache` is a
      plain object, so `authorizationCache[state]` is also truthy for a key it
      inherits. */
  predicate StateCheckPassesAsWritten(cache: map<string, FlowState>, state: string) {
    state in cache || state in InheritedKeys
  }

  /** A callback with `state=constructor` passes the test as written although
      no such flow was ever issued, so it leads to a token exchange instead of
      the 400 an unknown state should get. `Server.Callback` tests own keys only. */
  lemma InheritedKeyPassesStateCheck(cache: map<string, FlowState>, state: string)
    requires state in InheritedKeys && state !in cache
    ensures StateCheckPassesAsWritten(cache, state)
    ensures JsString(Some(state)) !in cache
  {
  }
}
