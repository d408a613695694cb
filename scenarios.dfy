/**
 Request sequences taken from the repository's test suite, checked against the model's
 contracts: each method sets up a store the way the test does and its postcondition
 is what the test expects.
 */
module Scenarios {
  import opened Wrappers
  import opened Uri
  import opened Decimal
  import opened Models
  import opened Views

  const OtherUri: string := "https://otherhost.com/and/path?some=value"

  /** The checkauth stand-in of the tests: every username and password belong to user 500. */
  function AcceptAll(username: string, password: string): Option<int>
  {
    Some(500)
  }

  /** A store holding one client, client-1, whose secret is secret-1. */
  method SetUpClient(kdf: Kdf) returns (store: Store, client: Client)
    ensures fresh(store) && fresh(client) && store.Valid()
    ensures store.clients == [client] && store.redirectUris == [] && store.codes == [] && store.tokens == []
    ensures client.clientId == "client-1" && client.clientSecret == kdf("secret-1")
    ensures FindClient(store.clients, "client-1") == Some(client)
  {
    store := new Store();
    client := new Client("client-1", "secret-1", kdf);
    var added := store.AddClient(client);
  }

  /** client-1 with two redirect URIs: http://localhost, then OtherUri. */
  method SetUpRedirects(kdf: Kdf) returns (store: Store, client: Client)
    ensures fresh(store) && store.Valid()
    ensures store.clients == [client] && client.clientId == "client-1" && store.codes == []
    ensures RegisteredFor(client, store.redirectUris) == store.redirectUris
    ensures store.redirectUris == [RedirectUri(client, "http://localhost"), RedirectUri(client, OtherUri)]
  {
    store, client := SetUpClient(kdf);
    var added := store.AddRedirectUri(client, "http://localhost");
    assert store.redirectUris == [RedirectUri(client, "http://localhost")];
    assert |"http://localhost"| != |OtherUri|;
    added := store.AddRedirectUri(client, OtherUri);
    assert added;
    var uris := store.redirectUris;
    assert RegisteredFor(client, uris[1..][1..]) == [];
    assert RegisteredFor(client, uris[1..]) == uris[1..];
  }

  /** With two registered URIs and no redirect_uri the request is refused. */
  method AmbiguousRedirectScenario(kdf: Kdf, parseUri: string -> UriParts) returns (ambiguous: ViewResult)
    ensures ambiguous == Error(BadRequest, Some(InvalidRequest))
  {
    var store, client := SetUpRedirects(kdf);
    var req := AuthorizeRequest("https", map["response_type" := "code", "client_id" := "client-1"]);
    assert ResolveRedirect(client, store.redirectUris, None) == None;
    ambiguous := store.AuthorizeEndpoint(req, true, 7, parseUri, "code-0", 1000);
  }

  /**
   With the second URI and a state supplied, the redirect keeps that URI's host, path
   and query and adds code and state.
   */
  method RetainQueryScenario(kdf: Kdf, parseUri: string -> UriParts) returns (chosen: ViewResult)
    requires parseUri(OtherUri) == UriParts("https", "otherhost.com", "/and/path", "", [("some", "value")], "")
    ensures chosen.Found?
    ensures chosen.location.scheme == "https" && chosen.location.netloc == "otherhost.com"
    ensures chosen.location.path == "/and/path" && chosen.location.fragment == ""
    ensures Get(chosen.location.query, "some") == Some("value")
    ensures Get(chosen.location.query, "code") == Some("code-1")
    ensures Get(chosen.location.query, "state") == Some("testing")
  {
    var store, client := SetUpRedirects(kdf);
    var params := map["response_type" := "code", "client_id" := "client-1", "redirect_uri" := OtherUri, "state" := "testing"];
    var req := AuthorizeRequest("https", params);
    var redirect := RedirectUri(client, OtherUri);
    assert redirect in store.redirectUris;
    assert DecideAuthorize(req, true, store.clients, store.redirectUris) == IssueCode(client, redirect, Some("testing"));
    assert CodeUnused("code-1", store.codes);
    chosen := store.AuthorizeEndpoint(req, true, 7, parseUri, "code-1", 1000);
    assert LastValue([("some", "value")], "some") == Some("value");
  }

  /** The password grant answers with the five keys of a bearer token for the checked user. */
  method PasswordScenario(kdf: Kdf) returns (granted: ViewResult)
    ensures granted == Rendered(BearerBody("access-1", "refresh-1", 500))
  {
    var store, client := SetUpClient(kdf);
    var secret := client.NewClientSecret("secret-2", kdf);
    var response := new Response();
    var post := map["grant_type" := "password", "username" := "john", "password" := "foo"];
    var req := TokenRequest("https", "POST", Some(Credentials("client-1", secret)), post);
    assert DecideToken(req, true, kdf, store.clients) == PasswordGrant(client);
    assert DecidePassword(post, AcceptAll) == MintFor(500);
    granted := store.TokenEndpoint(req, true, kdf, AcceptAll, response, "access-1", "refresh-1", 1000);
  }

  /** Without credentials the answer is 401, with a wrong secret 400, with GET 405. */
  method ClientCheckScenario(kdf: Kdf) returns (missing: ViewResult, wrong: ViewResult, get: ViewResult)
    requires kdf("abcde") != kdf("secret-1")
    ensures missing == Error(Unauthorized, None)
    ensures wrong == Error(BadRequest, Some(InvalidRequest))
    ensures get == Error(MethodNotAllowed, None)
  {
    var store, client := SetUpClient(kdf);
    var response := new Response();
    var post := map["grant_type" := "password", "username" := "john", "password" := "foo"];
    var req := TokenRequest("https", "POST", None, post);
    missing := store.TokenEndpoint(req, true, kdf, AcceptAll, response, "access-1", "refresh-1", 1000);
    req := req.(credentials := Some(Credentials("client-1", "abcde")));
    wrong := store.TokenEndpoint(req, true, kdf, AcceptAll, response, "access-1", "refresh-1", 1000);
    req := req.(httpMethod := "GET", credentials := Some(Credentials("client-1", "secret-1")));
    get := store.TokenEndpoint(req, true, kdf, AcceptAll, response, "access-1", "refresh-1", 1000);
  }

  /** A store after one password grant: client-1 holds token access-1 / refresh-1 of user 500. */
  method SetUpToken(kdf: Kdf) returns (store: Store, client: Client, token: Token)
    ensures fresh(store) && store.Valid()
    ensures store.clients == [client] && store.tokens == [token]
    ensures client.clientId == "client-1" && client.clientSecret == kdf("secret-1")
    ensures fresh(token) && token.client == client && token.userId == 500
    ensures token.accessToken == "access-1" && token.refreshToken == "refresh-1"
  {
    store, client := SetUpClient(kdf);
    var response := new Response();
    var post := map["grant_type" := "password", "username" := "john", "password" := "foo"];
    var req := TokenRequest("https", "POST", Some(Credentials("client-1", "secret-1")), post);
    assert DecideToken(req, true, kdf, store.clients) == PasswordGrant(client);
    assert DecidePassword(post, AcceptAll) == MintFor(500);
    var granted := store.TokenEndpoint(req, true, kdf, AcceptAll, response, "access-1", "refresh-1", 1000);
    token := store.tokens[0];
  }

  /** A token revoked by hand still refreshes, for the same user. */
  method RevokedRefreshScenario(kdf: Kdf) returns (refreshed: ViewResult)
    ensures refreshed == Rendered(BearerBody("access-2", "refresh-2", 500))
  {
    var store, client, token := SetUpToken(kdf);
    token.Revoke(1001);
    var response := new Response();
    var post := map["grant_type" := "refresh_token", "refresh_token" := "refresh-1", "user_id" := "500"];
    var req := TokenRequest("https", "POST", Some(Credentials("client-1", "secret-1")), post);
    assert Str(500) == "500";
    assert DecideToken(req, true, kdf, store.clients) == RefreshGrant(client);
    assert DecideRefresh(post, client, store.tokens) == Rotate(token);
    assert TokensUnused("access-2", "refresh-2", store.tokens);
    refreshed := store.TokenEndpoint(req, true, kdf, AcceptAll, response, "access-2", "refresh-2", 1002);
  }

  /** An unknown refresh token gets a 401 invalid_token. */
  method UnknownRefreshScenario(kdf: Kdf) returns (unknown: ViewResult)
    ensures unknown == Error(Unauthorized, Some(InvalidToken))
  {
    var store, client, token := SetUpToken(kdf);
    var response := new Response();
    var post := map["grant_type" := "refresh_token", "refresh_token" := "abcd", "user_id" := "500"];
    var req := TokenRequest("https", "POST", Some(Credentials("client-1", "secret-1")), post);
    assert DecideToken(req, true, kdf, store.clients) == RefreshGrant(client);
    assert DecideRefresh(post, client, store.tokens) == RefreshRefused(Error(Unauthorized, Some(InvalidToken)));
    unknown := store.TokenEndpoint(req, true, kdf, AcceptAll, response, "access-2", "refresh-2", 1002);
  }

  /** A user_id that is not the token's owner gets a 400 invalid_client. */
  method WrongUserScenario(kdf: Kdf) returns (wrongUser: ViewResult)
    ensures wrongUser == Error(BadRequest, Some(InvalidClient))
  {
    var store, client, token := SetUpToken(kdf);
    var response := new Response();
    var post := map["grant_type" := "refresh_token", "refresh_token" := "refresh-1", "user_id" := "2"];
    var req := TokenRequest("https", "POST", Some(Credentials("client-1", "secret-1")), post);
    assert Str(500) == "500";
    assert DecideToken(req, true, kdf, store.clients) == RefreshGrant(client);
    assert token in store.tokens && token.refreshToken == post["refresh_token"];
    assert !DecideRefresh(post, client, store.tokens).Rotate?;
    wrongUser := store.TokenEndpoint(req, true, kdf, AcceptAll, response, "access-2", "refresh-2", 1002);
  }

  /** Asked at once, expires_in 0 reads as revoked and expires_in 10 as live. */
  method ExpiryScenario(client: Client, now: int) returns (expired: bool, live: bool)
    ensures expired && !live
  {
    var t := new Token(client, 500, "access-1", "refresh-1", now);
    t.expiresIn := 0;
    expired := t.IsRevoked(now);
    var u := new Token(client, 500, "access-2", "refresh-2", now);
    u.expiresIn := 10;
    live := u.IsRevoked(now);
  }
}
