/**
 The two endpoints of the provider, the authorization endpoint and the token endpoint,
 over an in-memory store of clients, redirect URIs, codes and tokens. The order of the
 checks each endpoint makes is given by a pure decision function; the methods of the
 store carry out what the decision asks for and say which rows they add or change.
 */
module Views {
  import opened Wrappers
  import opened Uri
  import opened Decimal
  import opened Models

  /** The HTTP error classes the endpoints answer with. */
  datatype Status = BadRequest | Unauthorized | MethodNotAllowed
  {
    function Code(): int
    {
      match this
      case BadRequest => 400
      case Unauthorized => 401
      case MethodNotAllowed => 405
    }
  }

  /** The OAuth2 error an error response carries, when it carries one. */
  datatype OAuthError = InvalidRequest | InvalidClient | InvalidToken | UnsupportedGrantType

  /** What a view returns. */
  datatype ViewResult =
    | Found(location: UriParts)                     // a 302 redirect
    | Rendered(body: map<string, Json>)              // a dict the JSON renderer turns into a 200
    | Error(status: Status, error: Option<OAuthError>)
    | IntegrityFault                                 // a unique column rejected the flush; the transaction is aborted

  const InvalidRequestError: ViewResult := Error(BadRequest, Some(InvalidRequest))

  /** The request object's response (request.response), whose header list the renderer sends. */
  class Response {
    var headerlist: seq<(string, string)>

    constructor ()
      ensures headerlist == []
    {
      headerlist := [];
    }
  }

  const CacheHeaders: seq<(string, string)> := [("Cache-Control", "no-store"), ("Pragma", "no-cache")]

  /** add_cache_headers: marks the token response as not to be stored by caches. */
  method AddCacheHeaders(response: Response)
    modifies response
    ensures response.headerlist == old(response.headerlist) + CacheHeaders
  {
    response.headerlist := response.headerlist + [("Cache-Control", "no-store")];
    response.headerlist := response.headerlist + [("Pragma", "no-cache")];
  }

  datatype AuthorizeRequest = AuthorizeRequest(scheme: string, params: map<string, string>)

  /** client_id and client_secret as getClientCredentials leaves them on the request. */
  datatype Credentials = Credentials(clientId: string, clientSecret: string)

  datatype TokenRequest = TokenRequest(scheme: string, httpMethod: string,
                                       credentials: Option<Credentials>, post: map<string, string>)

  /** params.get(name). */
  function Param(params: map<string, string>, name: string): Option<string>
  {
    if name in params then Some(params[name]) else None
  }

  /** params.get(name) is truthy: present and not empty. */
  predicate Given(params: map<string, string>, name: string)
  {
    name in params && params[name] != ""
  }

  /** require_https refuses the request: not https while require_ssl is on. */
  predicate HttpsRefused(scheme: string, requireSsl: bool)
  {
    scheme != "https" && requireSsl
  }

  /** query.filter_by(...).first(): the first row that satisfies p. */
  function First<T>(s: seq<T>, p: T -> bool): (r: Option<T>)
    ensures r.Some? ==> r.value in s && p(r.value)
    ensures r.None? ==> forall x :: x in s ==> !p(x)
  {
    if s == [] then None
    else if p(s[0]) then Some(s[0])
    else First(s[1..], p)
  }

  /** first() takes the earliest matching row: no row before it satisfies p. */
  lemma {:induction false} FirstIsEarliest<T>(s: seq<T>, p: T -> bool)
    ensures First(s, p).Some? ==>
              exists i :: 0 <= i < |s| && s[i] == First(s, p).value && forall j :: 0 <= j < i ==> !p(s[j])
  {
    if s != [] && !p(s[0]) {
      FirstIsEarliest(s[1..], p);
      if First(s, p).Some? {
        var i :| 0 <= i < |s[1..]| && s[1..][i] == First(s, p).value && forall j :: 0 <= j < i ==> !p(s[1..][j]);
        assert s[i + 1] == First(s, p).value;
        forall j | 0 <= j < i + 1 ensures !p(s[j]) {
          if j > 0 { assert s[j] == s[1..][j - 1]; }
        }
      }
    } else if s != [] {
      assert s[0] == First(s, p).value;
    }
  }

  /** The client row whose client_id is clientId. */
  function FindClient(clients: seq<Client>, clientId: string): (r: Option<Client>)
    ensures r.Some? ==> r.value in clients && r.value.clientId == clientId
    ensures r.None? ==> forall c :: c in clients ==> c.clientId != clientId
  {
    First(clients, (c: Client) => c.clientId == clientId)
  }

  /** client.redirect_uris: the rows registered for this client, in table order. */
  function RegisteredFor(client: Client, uris: seq<RedirectUri>): (r: seq<RedirectUri>)
    ensures forall u :: u in r ==> u in uris && u.client == client
    ensures forall u :: u in uris && u.client == client ==> u in r
  {
    if uris == [] then []
    else (if uris[0].client == client then [uris[0]] else []) + RegisteredFor(client, uris[1..])
  }

  /**
   The redirect URI of an authorize request. With exactly one registered URI and none
   supplied, that one; otherwise the supplied string must equal a registered URI of
   this client as a whole. Comparing the string with the row itself (views.py:117) is
   never true, so a supplied URI is always looked up by the query that follows.
   */
  function ResolveRedirect(client: Client, uris: seq<RedirectUri>, supplied: Option<string>): (r: Option<RedirectUri>)
    ensures r.Some? ==> r.value in uris && r.value.client == client
    ensures supplied.None? ==> (r.Some? <==> |RegisteredFor(client, uris)| == 1)
    ensures supplied.None? && r.Some? ==> r.value == RegisteredFor(client, uris)[0]
    ensures supplied.Some? ==> (r.Some? <==> RedirectUri(client, supplied.value) in uris)
    ensures supplied.Some? && r.Some? ==> r.value.uri == supplied.value
  {
    var registered := RegisteredFor(client, uris);
    if |registered| == 1 && supplied.None? then Some(registered[0])
    else if |registered| > 0 then
      match supplied
      // filter_by(uri=None) compares with NULL, and uri is never NULL
      case None => None
      case Some(s) => First(uris, (u: RedirectUri) => u.client == client && u.uri == s)
    else None
  }

  /** handle_implicit: the implicit grant is refused. */
  function HandleImplicit(client: Client, redirect: RedirectUri, state: Option<string>): (r: ViewResult)
    ensures r == Error(BadRequest, Some(InvalidRequest))
  {
    InvalidRequestError
  }

  datatype AuthorizeDecision =
    | AuthorizeRefused(result: ViewResult)
    | IssueCode(client: Client, redirect: RedirectUri, state: Option<string>)

  /**
   oauth2_authorize behind require_https, up to the call of the grant handler: the
   scheme, then client_id, then the redirect URI, and only then response_type.
   Every refusal is a 400 invalid_request and none is a redirect.
   */
  function DecideAuthorize(req: AuthorizeRequest, requireSsl: bool,
                           clients: seq<Client>, uris: seq<RedirectUri>): (d: AuthorizeDecision)
    ensures HttpsRefused(req.scheme, requireSsl) ==> d == AuthorizeRefused(InvalidRequestError)
    ensures d.AuthorizeRefused? ==> d.result == Error(BadRequest, Some(InvalidRequest))
    ensures !Given(req.params, "client_id") ==> d.AuthorizeRefused?
    ensures d.IssueCode? ==>
      && !HttpsRefused(req.scheme, requireSsl)
      && Given(req.params, "client_id")
      && FindClient(clients, req.params["client_id"]) == Some(d.client)
      && ResolveRedirect(d.client, uris, if Given(req.params, "redirect_uri") then Some(req.params["redirect_uri"]) else None) == Some(d.redirect)
      && Param(req.params, "response_type") == Some("code")
      && d.state == Param(req.params, "state")
    ensures
      && !HttpsRefused(req.scheme, requireSsl)
      && Given(req.params, "client_id")
      && FindClient(clients, req.params["client_id"]).Some?
      && ResolveRedirect(FindClient(clients, req.params["client_id"]).value, uris,
                         if Given(req.params, "redirect_uri") then Some(req.params["redirect_uri"]) else None).Some?
      && Param(req.params, "response_type") == Some("code")
      ==> d.IssueCode?
  {
    if HttpsRefused(req.scheme, requireSsl) then AuthorizeRefused(InvalidRequestError)
    else if !Given(req.params, "client_id") then AuthorizeRefused(InvalidRequestError)
    else
      match FindClient(clients, req.params["client_id"])
      case None => AuthorizeRefused(InvalidRequestError)
      case Some(client) =>
        var supplied := if Given(req.params, "redirect_uri") then Some(req.params["redirect_uri"]) else None;
        match ResolveRedirect(client, uris, supplied)
        case None => AuthorizeRefused(InvalidRequestError)
        case Some(redirect) =>
          var responseType := Param(req.params, "response_type");
          var state := Param(req.params, "state");
          if responseType == Some("code") then IssueCode(client, redirect, state)
          else if responseType == Some("token") then AuthorizeRefused(HandleImplicit(client, redirect, state))
          else AuthorizeRefused(InvalidRequestError)
  }

  /**
   The Location of a code grant: the registered URI's scheme, host, path and params,
   no fragment, and a query that holds every parameter of the registered query, with
   code set to the new code and state set when a non-empty state was given.
   */
  ghost predicate IsAuthcodeRedirect(loc: UriParts, registered: UriParts, code: string, state: Option<string>)
  {
    && loc.scheme == registered.scheme && loc.netloc == registered.netloc
    && loc.path == registered.path && loc.params == registered.params
    && loc.fragment == ""
    && IsAuthcodeQuery(loc.query, registered.query, code, state)
  }

  /**
   The query of that Location: a dict holding every parameter of the registered query,
   code set to the new code, and state set when a non-empty state was given.
   */
  ghost predicate IsAuthcodeQuery(query: Query, registered: Query, code: string, state: Option<string>)
  {
    && UniqueKeys(query)
    && Get(query, "code") == Some(code)
    && Get(query, "state") == (if state.Some? && state.value != "" then state else LastValue(registered, "state"))
    && forall k :: k != "code" && k != "state" ==> Get(query, k) == LastValue(registered, k)
  }

  /** Setting code, then a non-empty state, on dict(parse_qsl(registered)) gives the query of the redirect. */
  lemma AuthcodeQueryBuilt(registered: Query, code: string, state: Option<string>)
    ensures var withCode := Put(QueryDict(registered), "code", code);
            IsAuthcodeQuery(if state.Some? && state.value != "" then Put(withCode, "state", state.value) else withCode,
                            registered, code, state)
  {
  }

  datatype TokenDecision =
    | TokenRefused(result: ViewResult)
    | PasswordGrant(client: Client)
    | RefreshGrant(client: Client)

  /** No two rows share a client_id (the unique column). */
  ghost predicate UniqueClientIds(clients: seq<Client>)
  {
    forall i, j :: 0 <= i < j < |clients| ==> clients[i].clientId != clients[j].clientId
  }

  /**
   The client a token request authenticates as: the row named by the credentials, if
   kdf.verify accepts the secret against its digest. A missing row fails closed, as
   the AttributeError it raises is caught with the bad-key error.
   */
  function AuthenticatedClient(creds: Credentials, kdf: Kdf, clients: seq<Client>): (r: Option<Client>)
    requires UniqueClientIds(clients)
    reads clients
    ensures r.Some? ==> r.value in clients && r.value.clientId == creds.clientId
                        && Verify(kdf, creds.clientSecret, r.value.clientSecret)
    ensures r.None? ==> forall c :: c in clients && c.clientId == creds.clientId ==> !Verify(kdf, creds.clientSecret, c.clientSecret)
  {
    match FindClient(clients, creds.clientId)
    case None => None
    case Some(client) => if Verify(kdf, creds.clientSecret, client.clientSecret) then Some(client) else None
  }

  /**
   oauth2_token behind require_https, up to the dispatch to a grant handler: the
   scheme, then the method, then the presence of credentials, then the client and its
   secret, then grant_type.
   */
  function DecideToken(req: TokenRequest, requireSsl: bool, kdf: Kdf, clients: seq<Client>): (d: TokenDecision)
    requires UniqueClientIds(clients)
    reads clients
    ensures HttpsRefused(req.scheme, requireSsl) ==> d == TokenRefused(InvalidRequestError)
    ensures d == TokenRefused(Error(MethodNotAllowed, None)) <==>
              !HttpsRefused(req.scheme, requireSsl) && req.httpMethod != "POST"
    ensures d == TokenRefused(Error(Unauthorized, None)) <==>
              !HttpsRefused(req.scheme, requireSsl) && req.httpMethod == "POST" && req.credentials.None?
    ensures (&& !HttpsRefused(req.scheme, requireSsl) && req.httpMethod == "POST" && req.credentials.Some?
             && AuthenticatedClient(req.credentials.value, kdf, clients).None?)
            ==> d == TokenRefused(InvalidRequestError)
    ensures d == TokenRefused(Error(BadRequest, Some(UnsupportedGrantType))) <==>
              && !HttpsRefused(req.scheme, requireSsl) && req.httpMethod == "POST" && req.credentials.Some?
              && AuthenticatedClient(req.credentials.value, kdf, clients).Some?
              && Param(req.post, "grant_type") != Some("password") && Param(req.post, "grant_type") != Some("refresh_token")
    ensures !d.TokenRefused? ==>
              && !HttpsRefused(req.scheme, requireSsl) && req.httpMethod == "POST" && req.credentials.Some?
              && AuthenticatedClient(req.credentials.value, kdf, clients) == Some(d.client)
    ensures d.PasswordGrant? <==>
              && !HttpsRefused(req.scheme, requireSsl) && req.httpMethod == "POST" && req.credentials.Some?
              && AuthenticatedClient(req.credentials.value, kdf, clients).Some?
              && Param(req.post, "grant_type") == Some("password")
    ensures d.RefreshGrant? <==>
              && !HttpsRefused(req.scheme, requireSsl) && req.httpMethod == "POST" && req.credentials.Some?
              && AuthenticatedClient(req.credentials.value, kdf, clients).Some?
              && Param(req.post, "grant_type") == Some("refresh_token")
  {
    if HttpsRefused(req.scheme, requireSsl) then TokenRefused(InvalidRequestError)
    else if req.httpMethod != "POST" then TokenRefused(Error(MethodNotAllowed, None))
    else
      match req.credentials
      case None => TokenRefused(Error(Unauthorized, None))
      case Some(creds) =>
        match AuthenticatedClient(creds, kdf, clients)
        case None => TokenRefused(InvalidRequestError)
        case Some(client) =>
          var grantType := Param(req.post, "grant_type");
          if grantType == Some("password") then PasswordGrant(client)
          else if grantType == Some("refresh_token") then RefreshGrant(client)
          else TokenRefused(Error(BadRequest, Some(UnsupportedGrantType)))
  }

  /** `not user_id` is false: checkauth gave a user, and not the falsy 0. */
  predicate Truthy(userId: Option<int>)
  {
    userId.Some? && userId.value != 0
  }

  datatype PasswordDecision = PasswordRefused(result: ViewResult) | MintFor(userId: int)

  /**
   handle_password up to the new token: username and password must both be posted,
   and checkauth must return a truthy user id.
   */
  function DecidePassword(post: map<string, string>, checkauth: (string, string) -> Option<int>): (d: PasswordDecision)
    ensures "username" !in post || "password" !in post ==> d == PasswordRefused(InvalidRequestError)
    ensures "username" in post && "password" in post ==>
              (d == PasswordRefused(Error(Unauthorized, Some(InvalidClient))) <==> !Truthy(checkauth(post["username"], post["password"])))
    ensures d.MintFor? ==> "username" in post && "password" in post
                           && checkauth(post["username"], post["password"]) == Some(d.userId) && d.userId != 0
    ensures "username" in post && "password" in post && Truthy(checkauth(post["username"], post["password"])) ==>
              d == MintFor(checkauth(post["username"], post["password"]).value)
  {
    if "username" !in post || "password" !in post then PasswordRefused(InvalidRequestError)
    else
      var userId := checkauth(post["username"], post["password"]);
      if !Truthy(userId) then PasswordRefused(Error(Unauthorized, Some(InvalidClient)))
      else MintFor(userId.value)
  }

  /** No two tokens share a refresh_token (the unique column). */
  ghost predicate UniqueRefreshTokens(tokens: seq<Token>)
  {
    forall i, j :: 0 <= i < j < |tokens| ==> tokens[i].refreshToken != tokens[j].refreshToken
  }

  datatype RefreshDecision = RefreshRefused(result: ViewResult) | Rotate(token: Token)

  /**
   handle_refresh_token up to the refresh: refresh_token, then user_id, must be
   posted; the token must exist, belong to the authenticated client, and have the
   posted user_id as its str(). The token's revoked flag and expiry are never read.
   */
  function DecideRefresh(post: map<string, string>, client: Client, tokens: seq<Token>): (d: RefreshDecision)
    requires UniqueRefreshTokens(tokens)
    ensures "refresh_token" !in post ==> d == RefreshRefused(InvalidRequestError)
    ensures "refresh_token" in post && "user_id" !in post ==> d == RefreshRefused(InvalidRequestError)
    ensures d == RefreshRefused(Error(Unauthorized, Some(InvalidToken))) <==>
              "refresh_token" in post && "user_id" in post
              && forall t :: t in tokens ==> t.refreshToken != post["refresh_token"]
    ensures d.Rotate? <==>
              "refresh_token" in post && "user_id" in post
              && exists t :: t in tokens && t.refreshToken == post["refresh_token"]
                             && t.client.clientId == client.clientId && Str(t.userId) == post["user_id"]
    ensures d.Rotate? ==> d.token in tokens && d.token.refreshToken == post["refresh_token"]
                          && d.token.client.clientId == client.clientId && Str(d.token.userId) == post["user_id"]
    ensures "refresh_token" in post && "user_id" in post
            && (exists t :: t in tokens && t.refreshToken == post["refresh_token"]) && !d.Rotate? ==>
              d == RefreshRefused(Error(BadRequest, Some(InvalidClient)))
    ensures d.RefreshRefused? ==> d.result.Error? && d.result.status != MethodNotAllowed
  {
    if "refresh_token" !in post then RefreshRefused(InvalidRequestError)
    else if "user_id" !in post then RefreshRefused(InvalidRequestError)
    else
      match First(tokens, (t: Token) => t.refreshToken == post["refresh_token"])
      case None => RefreshRefused(Error(Unauthorized, Some(InvalidToken)))
      case Some(token) =>
        if token.client.clientId != client.clientId then RefreshRefused(Error(BadRequest, Some(InvalidClient)))
        else if Str(token.userId) != post["user_id"] then RefreshRefused(Error(BadRequest, Some(InvalidClient)))
        else Rotate(token)
  }

  /** The user check of the refresh grant: the posted str(u) matches a token exactly when it is u's. */
  lemma UserCheckIsIdentity(t: Token, u: int)
    ensures Str(t.userId) == Str(u) <==> t.userId == u
  {
    if Str(t.userId) == Str(u) {
      StrInjective(t.userId, u);
    }
  }

  /**
   require_https with require_ssl on: a request by any other scheme is refused with
   400 invalid_request by both endpoints before anything else is looked at, and an
   https request passes the gate untouched.
   */
  lemma RequireHttps(req: AuthorizeRequest, treq: TokenRequest, kdf: Kdf, clients: seq<Client>, uris: seq<RedirectUri>)
    requires UniqueClientIds(clients)
    ensures req.scheme != "https" ==> DecideAuthorize(req, true, clients, uris) == AuthorizeRefused(InvalidRequestError)
    ensures treq.scheme != "https" ==> DecideToken(treq, true, kdf, clients) == TokenRefused(InvalidRequestError)
    ensures req.scheme == "https" ==> DecideAuthorize(req, true, clients, uris) == DecideAuthorize(req, false, clients, uris)
    ensures treq.scheme == "https" ==> DecideToken(treq, true, kdf, clients) == DecideToken(treq, false, kdf, clients)
  {
  }

  /** With require_ssl off the scheme plays no part: an authorize request is decided as if it came over https. */
  lemma AuthorizeWithoutSslCheck(req: AuthorizeRequest, clients: seq<Client>, uris: seq<RedirectUri>)
    ensures DecideAuthorize(req, false, clients, uris) == DecideAuthorize(req.(scheme := "https"), true, clients, uris)
  {
  }

  /** With require_ssl off the scheme plays no part: a token request is decided as if it came over https. */
  lemma TokenWithoutSslCheck(req: TokenRequest, kdf: Kdf, clients: seq<Client>)
    requires UniqueClientIds(clients)
    ensures DecideToken(req, false, kdf, clients) == DecideToken(req.(scheme := "https"), true, kdf, clients)
  {
  }

  /** Some check before response_type refuses the request: the scheme, client_id, the client or the redirect URI. */
  predicate RefusedBeforeResponseType(req: AuthorizeRequest, requireSsl: bool, clients: seq<Client>, uris: seq<RedirectUri>)
  {
    || HttpsRefused(req.scheme, requireSsl)
    || !Given(req.params, "client_id")
    || FindClient(clients, req.params["client_id"]).None?
    || ResolveRedirect(FindClient(clients, req.params["client_id"]).value, uris,
                       if Given(req.params, "redirect_uri") then Some(req.params["redirect_uri"]) else None).None?
  }

  /**
   response_type is looked at only after the redirect URI is resolved: a request refused
   earlier gets the same answer whatever response_type it carries, or none.
   */
  lemma ResponseTypeReadLast(req: AuthorizeRequest, requireSsl: bool, clients: seq<Client>, uris: seq<RedirectUri>,
                             responseType: Option<string>)
    requires RefusedBeforeResponseType(req, requireSsl, clients, uris)
    ensures var params' := if responseType.Some? then req.params["response_type" := responseType.value]
                           else req.params - {"response_type"};
            DecideAuthorize(req.(params := params'), requireSsl, clients, uris)
            == DecideAuthorize(req, requireSsl, clients, uris)
            == AuthorizeRefused(InvalidRequestError)
  {
  }

  /** No code row has this code string yet. */
  ghost predicate CodeUnused(authcode: string, codes: seq<Code>)
  {
    forall c :: c in codes ==> c.authcode != authcode
  }

  /** Neither token string is in its column yet. */
  ghost predicate TokensUnused(access: string, refresh: string, tokens: seq<Token>)
  {
    forall t :: t in tokens ==> t.accessToken != access && t.refreshToken != refresh
  }

  /** after is before plus one new code row for the client and user. */
  ghost predicate CodeAdded(before: seq<Code>, after: seq<Code>, client: Client, userId: int, authcode: string, now: int)
    reads after
  {
    && |after| == |before| + 1 && after[..|before|] == before
    && var c := after[|before|];
       c.client == client && c.userId == userId && c.authcode == authcode
       && c.creationDate == now && c.expiresIn == CodeLifetime && !c.revoked && c.revocationDate == None
  }

  /** after is before plus one new token row for the client and user, and result is its bearer JSON body. */
  ghost predicate TokenAdded(before: seq<Token>, after: seq<Token>, client: Client, userId: int,
                             access: string, refresh: string, now: int, result: ViewResult)
    reads after
  {
    && |after| == |before| + 1 && after[..|before|] == before
    && var t := after[|before|];
       && t.client == client && t.userId == userId && t.accessToken == access && t.refreshToken == refresh
       && t.creationDate == now && t.expiresIn == TokenLifetime && !t.revoked && t.revocationDate == None
       && result == Rendered(BearerBody(access, refresh, userId))
  }

  /**
   The Location handle_authcode redirects to: the registered URI's query read into a
   dict, code and then a non-empty state written into it, and the fragment dropped.
   */
  method AuthcodeLocation(parts: UriParts, authcode: string, state: Option<string>) returns (location: UriParts)
    ensures IsAuthcodeRedirect(location, parts, authcode, state)
  {
    var qparams := QueryDict(parts.query);
    qparams := Put(qparams, "code", authcode);
    if state.Some? && state.value != "" {
      qparams := Put(qparams, "state", state.value);
    }
    AuthcodeQueryBuilt(parts.query, authcode, state);
    location := UriParts(parts.scheme, parts.netloc, parts.path, parts.params, qparams, "");
  }

  /** Appending a code whose string no row holds keeps the authcode column unique. */
  lemma CodeAppendKeepsUnique(codes: seq<Code>, code: Code)
    requires forall i, j :: 0 <= i < j < |codes| ==> codes[i].authcode != codes[j].authcode
    requires CodeUnused(code.authcode, codes)
    ensures var after := codes + [code];
            forall i, j :: 0 <= i < j < |after| ==> after[i].authcode != after[j].authcode
  {
    forall i | 0 <= i < |codes|
      ensures codes[i].authcode != code.authcode
    {
      assert codes[i] in codes;
    }
  }

  /** No row at any position holds either string. */
  lemma NotInTokens(tokens: seq<Token>, access: string, refresh: string)
    requires forall t :: t in tokens ==> !(t.accessToken == access || t.refreshToken == refresh)
    ensures forall i :: 0 <= i < |tokens| ==> tokens[i].accessToken != access && tokens[i].refreshToken != refresh
  {
    forall i | 0 <= i < |tokens|
      ensures tokens[i].accessToken != access && tokens[i].refreshToken != refresh
    {
      assert tokens[i] in tokens;
    }
  }

  /**
   The unique columns, and every code, token and redirect URI pointing at a stored
   client. Every column involved is written once, so the invariant depends on the rows
   alone.
   */
  ghost predicate TablesValid(clients: seq<Client>, redirectUris: seq<RedirectUri>, codes: seq<Code>, tokens: seq<Token>)
  {
    && UniqueClientIds(clients)
    && (forall i, j :: 0 <= i < j < |redirectUris| ==> redirectUris[i].uri != redirectUris[j].uri)
    && (forall u :: u in redirectUris ==> u.client in clients)
    && (forall i, j :: 0 <= i < j < |codes| ==> codes[i].authcode != codes[j].authcode)
    && (forall c :: c in codes ==> c.client in clients)
    && (forall i, j :: 0 <= i < j < |tokens| ==> tokens[i].accessToken != tokens[j].accessToken)
    && UniqueRefreshTokens(tokens)
    && (forall t :: t in tokens ==> t.client in clients)
  }

  /**
   Under the table invariant a unique column value names one row: the client by its
   client_id, the redirect URI by its uri, the code by its authcode, the token by
   either of its strings.
   */
  lemma UniqueColumnsIdentifyRows(clients: seq<Client>, redirectUris: seq<RedirectUri>, codes: seq<Code>, tokens: seq<Token>)
    requires TablesValid(clients, redirectUris, codes, tokens)
    ensures forall a, b :: a in clients && b in clients && a.clientId == b.clientId ==> a == b
    ensures forall a, b :: a in redirectUris && b in redirectUris && a.uri == b.uri ==> a == b
    ensures forall a, b :: a in codes && b in codes && a.authcode == b.authcode ==> a == b
    ensures forall a, b :: a in tokens && b in tokens && a.accessToken == b.accessToken ==> a == b
    ensures forall a, b :: a in tokens && b in tokens && a.refreshToken == b.refreshToken ==> a == b
  {
    forall a, b | a in clients && b in clients && a.clientId == b.clientId ensures a == b {
      var i :| 0 <= i < |clients| && clients[i] == a;
      var j :| 0 <= j < |clients| && clients[j] == b;
      assert !(i < j) && !(j < i);
    }
    forall a, b | a in redirectUris && b in redirectUris && a.uri == b.uri ensures a == b {
      var i :| 0 <= i < |redirectUris| && redirectUris[i] == a;
      var j :| 0 <= j < |redirectUris| && redirectUris[j] == b;
      assert !(i < j) && !(j < i);
    }
    forall a, b | a in codes && b in codes && a.authcode == b.authcode ensures a == b {
      var i :| 0 <= i < |codes| && codes[i] == a;
      var j :| 0 <= j < |codes| && codes[j] == b;
      assert !(i < j) && !(j < i);
    }
    forall a, b | a in tokens && b in tokens && a.accessToken == b.accessToken ensures a == b {
      var i :| 0 <= i < |tokens| && tokens[i] == a;
      var j :| 0 <= j < |tokens| && tokens[j] == b;
      assert !(i < j) && !(j < i);
    }
    forall a, b | a in tokens && b in tokens && a.refreshToken == b.refreshToken ensures a == b {
      var i :| 0 <= i < |tokens| && tokens[i] == a;
      var j :| 0 <= j < |tokens| && tokens[j] == b;
      assert !(i < j) && !(j < i);
    }
  }

  /** The database tables, as rows in insertion order. */
  class Store {
    var clients: seq<Client>
    var redirectUris: seq<RedirectUri>
    var codes: seq<Code>
    var tokens: seq<Token>

    /** The table invariant, on the rows as they are now. */
    ghost predicate Valid()
      reads this
    {
      TablesValid(clients, redirectUris, codes, tokens)
    }

    constructor ()
      ensures Valid()
      ensures clients == [] && redirectUris == [] && codes == [] && tokens == []
    {
      clients, redirectUris, codes, tokens := [], [], [], [];
    }

    /** db.add(client) and flush: refused when the client_id is taken. */
    method AddClient(client: Client) returns (ok: bool)
      requires Valid()
      modifies this
      ensures Valid()
      ensures ok <==> forall c :: c in old(clients) ==> c.clientId != client.clientId
      ensures clients == if ok then old(clients) + [client] else old(clients)
      ensures redirectUris == old(redirectUris) && codes == old(codes) && tokens == old(tokens)
    {
      ok := FindClient(clients, client.clientId).None?;
      if ok {
        clients := clients + [client];
      }
    }

    /** db.add(Oauth2RedirectUri(client, uri)) and flush: refused when the uri is taken by any client. */
    method AddRedirectUri(client: Client, uri: string) returns (ok: bool)
      requires Valid() && client in clients
      modifies this
      ensures Valid()
      ensures ok <==> forall u :: u in old(redirectUris) ==> u.uri != uri
      ensures redirectUris == if ok then old(redirectUris) + [RedirectUri(client, uri)] else old(redirectUris)
      ensures clients == old(clients) && codes == old(codes) && tokens == old(tokens)
    {
      ok := First(redirectUris, (u: RedirectUri) => u.uri == uri).None?;
      if ok {
        forall i | 0 <= i < |redirectUris| ensures redirectUris[i].uri != uri {
          assert redirectUris[i] in redirectUris;
        }
        redirectUris := redirectUris + [RedirectUri(client, uri)];
      }
    }

    /**
     handle_authcode: stores a new code for the client and the authenticated user and
     redirects to the registered URI with code (and state) merged into its query.
     */
    method HandleAuthcode(client: Client, redirect: RedirectUri, state: Option<string>, userId: int,
                          parseUri: string -> UriParts, generatedCode: string, now: int)
      returns (result: ViewResult)
      requires Valid() && client in clients
      modifies this
      ensures Valid()
      ensures clients == old(clients) && redirectUris == old(redirectUris) && tokens == old(tokens)
      ensures !CodeUnused(generatedCode, old(codes)) ==> result == IntegrityFault && codes == old(codes)
      ensures CodeUnused(generatedCode, old(codes)) ==>
                && CodeAdded(old(codes), codes, client, userId, generatedCode, now)
                && fresh(codes[|old(codes)|])
                && result.Found?
                && IsAuthcodeRedirect(result.location, parseUri(redirect.uri), generatedCode, state)
    {
      if First(codes, (c: Code) => c.authcode == generatedCode).Some? {
        return IntegrityFault;
      }
      var code := new Code(client, userId, generatedCode, now);
      CodeAppendKeepsUnique(codes, code);
      codes := codes + [code];
      var location := AuthcodeLocation(parseUri(redirect.uri), code.authcode, state);
      result := Found(location);
    }

    /**
     oauth2_authorize: refusals change nothing and redirect nowhere; a code request
     that passes every check adds exactly one code and redirects.
     */
    method AuthorizeEndpoint(req: AuthorizeRequest, requireSsl: bool, userId: int,
                             parseUri: string -> UriParts, generatedCode: string, now: int)
      returns (result: ViewResult)
      requires Valid()
      modifies this
      ensures Valid()
      ensures clients == old(clients) && redirectUris == old(redirectUris) && tokens == old(tokens)
      ensures match DecideAuthorize(req, requireSsl, clients, redirectUris)
        case AuthorizeRefused(r) => result == r && codes == old(codes)
        case IssueCode(client, redirect, state) =>
          if CodeUnused(generatedCode, old(codes)) then
            && CodeAdded(old(codes), codes, client, userId, generatedCode, now)
            && fresh(codes[|old(codes)|])
            && result.Found?
            && IsAuthcodeRedirect(result.location, parseUri(redirect.uri), generatedCode, state)
          else result == IntegrityFault && codes == old(codes)
    {
      match DecideAuthorize(req, requireSsl, clients, redirectUris)
      case AuthorizeRefused(r) =>
        result := r;
      case IssueCode(client, redirect, state) =>
        result := HandleAuthcode(client, redirect, state, userId, parseUri, generatedCode, now);
    }

    /**
     handle_password's effect, from the token rows before: a refusal answers with the
     decision's error and leaves the table alone; a minted token is one new row for the
     client and the checked user, answered with its bearer JSON.
     */
    twostate predicate PasswordHandled(before: seq<Token>, post: map<string, string>, client: Client,
                                       checkauth: (string, string) -> Option<int>,
                                       generatedAccess: string, generatedRefresh: string, now: int, result: ViewResult)
      reads this, tokens
    {
      match DecidePassword(post, checkauth)
      case PasswordRefused(r) => result == r && tokens == before
      case MintFor(userId) =>
        if TokensUnused(generatedAccess, generatedRefresh, before) then
          TokenAdded(before, tokens, client, userId, generatedAccess, generatedRefresh, now, result)
          && fresh(tokens[|before|])
        else result == IntegrityFault && tokens == before
    }

    /**
     handle_refresh_token's effect, from the token rows before: a refusal changes no
     token; a rotation revokes the found token at now, leaves every other row as it was,
     and adds one new row for that token's client and user.
     */
    twostate predicate RefreshHandled(before: seq<Token>, post: map<string, string>, client: Client,
                                      generatedAccess: string, generatedRefresh: string, now: int, result: ViewResult)
      requires UniqueRefreshTokens(before)
      reads this, tokens, before
    {
      match DecideRefresh(post, client, before)
      case RefreshRefused(r) => result == r && tokens == before && unchanged(before)
      case Rotate(old_) =>
        if TokensUnused(generatedAccess, generatedRefresh, before) then
          && old_.revoked && old_.revocationDate == Some(now) && old_.expiresIn == old(old_.expiresIn)
          && (forall t :: t in before && t != old_ ==> unchanged(t))
          && TokenAdded(before, tokens, old_.client, old_.userId, generatedAccess, generatedRefresh, now, result)
          && fresh(tokens[|before|])
        else result == IntegrityFault && tokens == before && unchanged(before)
    }

    /**
     handle_password: a truthy checkauth result gets exactly one new token for the
     client and that user; every other outcome leaves the tokens as they were.
     */
    method HandlePassword(post: map<string, string>, client: Client, checkauth: (string, string) -> Option<int>,
                          generatedAccess: string, generatedRefresh: string, now: int)
      returns (result: ViewResult)
      requires Valid() && client in clients
      modifies this
      ensures Valid()
      ensures clients == old(clients) && redirectUris == old(redirectUris) && codes == old(codes)
      ensures PasswordHandled(old(tokens), post, client, checkauth, generatedAccess, generatedRefresh, now, result)
    {
      match DecidePassword(post, checkauth)
      case PasswordRefused(r) =>
        result := r;
      case MintFor(userId) =>
        if First(tokens, (t: Token) => t.accessToken == generatedAccess || t.refreshToken == generatedRefresh).Some? {
          return IntegrityFault;
        }
        NotInTokens(tokens, generatedAccess, generatedRefresh);
        var token := new Token(client, userId, generatedAccess, generatedRefresh, now);
        tokens := tokens + [token];
        NewTokenJson(token);
        result := Rendered(token.AsJson(BearerKwargs));
    }

    /**
     handle_refresh_token: a matching refresh token is revoked and a new token for the
     same client and user is added; no other token changes.
     */
    method HandleRefreshToken(post: map<string, string>, client: Client,
                              generatedAccess: string, generatedRefresh: string, now: int)
      returns (result: ViewResult)
      requires Valid() && client in clients
      modifies this, tokens
      ensures Valid()
      ensures clients == old(clients) && redirectUris == old(redirectUris) && codes == old(codes)
      ensures RefreshHandled(old(tokens), post, client, generatedAccess, generatedRefresh, now, result)
    {
      match DecideRefresh(post, client, tokens)
      case RefreshRefused(r) =>
        result := r;
      case Rotate(token) =>
        if First(tokens, (t: Token) => t.accessToken == generatedAccess || t.refreshToken == generatedRefresh).Some? {
          return IntegrityFault;
        }
        NotInTokens(tokens, generatedAccess, generatedRefresh);
        var newToken := token.Refresh(generatedAccess, generatedRefresh, now);
        tokens := tokens + [newToken];
        NewTokenJson(newToken);
        result := Rendered(newToken.AsJson(BearerKwargs));
    }
    /**
     oauth2_token: a request refused before dispatch changes nothing and gets no cache
     headers. A dispatched grant has its handler's effect, and the two cache headers are
     appended to request.response afterwards, even when the handler answered with an
     error, but not when the flush failed.
     */
    method TokenEndpoint(req: TokenRequest, requireSsl: bool, kdf: Kdf, checkauth: (string, string) -> Option<int>,
                         response: Response, generatedAccess: string, generatedRefresh: string, now: int)
      returns (result: ViewResult)
      requires Valid()
      modifies this, tokens, response
      ensures Valid()
      ensures clients == old(clients) && redirectUris == old(redirectUris) && codes == old(codes)
      ensures match old(DecideToken(req, requireSsl, kdf, clients))
        case TokenRefused(r) =>
          result == r && tokens == old(tokens) && unchanged(old(tokens)) && unchanged(response)
        case PasswordGrant(client) =>
          && unchanged(old(tokens))
          && PasswordHandled(old(tokens), req.post, client, checkauth, generatedAccess, generatedRefresh, now, result)
          && response.headerlist == old(response.headerlist) + (if result == IntegrityFault then [] else CacheHeaders)
        case RefreshGrant(client) =>
          && RefreshHandled(old(tokens), req.post, client, generatedAccess, generatedRefresh, now, result)
          && response.headerlist == old(response.headerlist) + (if result == IntegrityFault then [] else CacheHeaders)
    {
      match DecideToken(req, requireSsl, kdf, clients) {
        case TokenRefused(r) =>
          return r;
        case PasswordGrant(client) =>
          result := HandlePassword(req.post, client, checkauth, generatedAccess, generatedRefresh, now);
          // a failed flush raises, so the view never reaches add_cache_headers
          if result != IntegrityFault {
            AddCacheHeaders(response);
          }
        case RefreshGrant(client) =>
          result := HandleRefreshToken(req.post, client, generatedAccess, generatedRefresh, now);
          if result != IntegrityFault {
            AddCacheHeaders(response);
          }
      }
    }
  }
}
