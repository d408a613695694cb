# pyramid_oauth2_provider: the grant-processing core in Dafny

pyramid_oauth2_provider is an OAuth 2.0 authorization server (RFC 6749) for the Pyramid
web framework. This project models its two endpoints and the database entities they
work on:

- the **authorize endpoint** (`oauth2_authorize`): the HTTPS gate, the client check,
  redirect-URI resolution, the response_type dispatch, and the authorization-code
  redirect built by `handle_authcode`;
- the **token endpoint** (`oauth2_token`): the HTTPS gate, the POST check, HTTP Basic
  client authentication against the stored secret digest, the grant_type dispatch, the
  password grant (`handle_password`), the refresh grant (`handle_refresh_token`), and
  the `Cache-Control`/`Pragma` headers added by `add_cache_headers`;
- the **entities** `Oauth2Client`, `Oauth2RedirectUri`, `Oauth2Code` and `Oauth2Token`,
  with their methods.

Layout:

- `wrappers.dfy` holds `Option`.
- `uri.dfy` models a parsed URI and the dictionary `dict(parse_qsl(query))` as an ordered
  association list. `d[k] = v` is modelled by `Put`.
- `decimal.dfy` models Python's `str(int)` and proves it injective. The refresh grant
  compares `str(token.user_id)` with the posted string.
- `models.dfy` holds the entity classes. Columns written once are `const`. Columns the
  code later updates (`revoked`, `revocation_date`, `expires_in`, `_client_secret`) are
  `var`, and their methods carry `modifies` clauses.
- `views.dfy` holds each endpoint in two parts:
  - a pure decision function, which gives the check order and every refusal;
  - a method on `Store` (the four tables as sequences), which performs the insert or
    revocation and states the new table contents.

  `Store.Valid()` holds the unique columns and the foreign keys as an invariant. It is
  stated on the four sequences by `TablesValid`. The outcome of each grant handler is
  stated by the two-state predicates `Store.PasswordHandled` and `Store.RefreshHandled`,
  which the token endpoint reuses.
- `scenarios.dfy` replays request sequences from the repository's tests. Each test's
  expected answer is a postcondition.

Values the code obtains from outside are parameters of the model:

- generated identifiers, secrets, codes and token strings;
- the clock, as integer seconds `now`;
- the configured scrypt derivation, as `kdf: string -> seq<bv8>`;
- the `IAuthCheck.checkauth` utility;
- the authenticated user id;
- `urlparse`, as `parseUri`;
- the `require_ssl` setting.

A generated value that collides with a unique column makes the flush fail and the
transaction abort. That outcome is `IntegrityFault`, and it leaves the store unchanged.

## Model

| member | source | states |
|---|---|---|
| Uri.Put | pyramid_oauth2_provider/views.py:150-152 | Assigning a dict key sets that key to the value. Every other key keeps its value. An existing key keeps its position, a new key goes last, and keys stay unique. |
| Uri.QueryDict | pyramid_oauth2_provider/views.py:143 | `dict(parse_qsl(q))` has unique keys. Each key maps to the last non-blank value q gives it, and blank values are dropped. |
| Decimal.Str | pyramid_oauth2_provider/views.py:324 | `str(n)` is non-empty and starts with `-` exactly when n is negative. |
| Decimal.ParseNatStr | pyramid_oauth2_provider/views.py:324 | Reading the decimal digits of `str(n)` back gives n, for every natural n (proved by induction). |
| Decimal.StrInjective | pyramid_oauth2_provider/views.py:324 | Two integers with the same `str()` are equal. |
| Models.Client.constructor | pyramid_oauth2_provider/models.py:57-59 | A new client gets the generated client_id. It stores the derived digest of the generated secret, not the secret itself, and is not revoked. |
| Models.Client.SetClientSecret | pyramid_oauth2_provider/models.py:70-87 | The secret setter stores kdf(secret) and changes no other column. |
| Models.Client.NewClientSecret | pyramid_oauth2_provider/models.py:61-64 | Returns the raw generated secret and stores its digest, so verifying the returned secret against the stored value succeeds. |
| Models.Client.Revoke | pyramid_oauth2_provider/models.py:89-91 | Sets revoked and records now as the revocation date. The secret is unchanged. |
| Models.Client.IsRevoked | pyramid_oauth2_provider/models.py:99-100 | Returns exactly the revoked flag and changes nothing. |
| Models.Code.constructor | pyramid_oauth2_provider/models.py:116-135 | A new code is bound to the client and user, with the generated authcode, expires_in 600 and not revoked. |
| Models.Code.Revoke | pyramid_oauth2_provider/models.py:137-139 | Sets revoked and records the date. expires_in is unchanged. |
| Models.Token.constructor | pyramid_oauth2_provider/models.py:154-175 | A new token is bound to the client and user, with two independently generated strings, expires_in 3600 and not revoked. |
| Models.Token.Revoke | pyramid_oauth2_provider/models.py:177-179 | Sets revoked and records the date. Repeating it keeps revoked true. expires_in is unchanged. |
| Models.Token.IsRevoked | pyramid_oauth2_provider/models.py:187-191 | The answer is true iff the token was revoked or creation + expires_in <= now, on whole seconds. An expired token becomes revoked permanently and its revocation date is set to now. A true flag never turns false. |
| Models.ExpiryIsFinal | pyramid_oauth2_provider/models.py:188-189 | `Token.Expired`, the expiry test of is_revoked, never turns false again as time passes. A token is live in the second before creation + expires_in and expired from that second on. |
| Models.Token.Refresh | pyramid_oauth2_provider/models.py:193-200 | Revokes this token and keeps its other fields. Returns a fresh, unrevoked token for the same client and user, with new strings and the default lifetime. |
| Models.Token.AsJson | pyramid_oauth2_provider/models.py:208-216 | The result holds the caller's keys plus the four token keys. The token's values win on a collision, and every other caller argument is kept. |
| Models.NewTokenJson | pyramid_oauth2_provider/models.py:208-216 | A token with the default lifetime renders, with token_type='bearer', as exactly token_type, access_token, refresh_token, user_id and expires_in 3600 (`BearerBody`). |
| Models.BearerJsonHasFiveKeys | pyramid_oauth2_provider/models.py:208-216 | Called with token_type='bearer', as_json has exactly five keys, and token_type is "bearer". |
| Views.AddCacheHeaders | pyramid_oauth2_provider/views.py:336-345 | Appends exactly `Cache-Control: no-store` and then `Pragma: no-cache` to the response's header list. |
| Views.First | pyramid_oauth2_provider/views.py:311-313 | `query.filter_by(...).first()`: a found row is in the table and matches. None means no row matches. |
| Views.FirstIsEarliest | pyramid_oauth2_provider/views.py:311-313 | The row `first()` returns comes before every other matching row, in insertion order (proved by induction). |
| Views.FindClient | pyramid_oauth2_provider/views.py:105-106 | Finds a stored client with the given client_id. None means no stored client has that id. |
| Views.RegisteredFor | pyramid_oauth2_provider/models.py:108-109 | `client.redirect_uris` holds exactly the redirect-URI rows of that client. |
| Views.ResolveRedirect | pyramid_oauth2_provider/views.py:113-125 | With none supplied, the URI resolves iff the client has exactly one registered URI, and it is that one. With one supplied, it resolves iff that exact string is a registered URI of this client. A resolved URI always belongs to the client. |
| Views.HandleImplicit | pyramid_oauth2_provider/views.py:159-161 | The implicit grant is always refused with 400 invalid_request. |
| Views.DecideAuthorize | pyramid_oauth2_provider/views.py:100-138 | Checks run in order: scheme, then client_id, then the client, then the redirect URI, then response_type. Every refusal is 400 invalid_request. A code is issued iff every check passes and response_type is "code"; the state is passed through. |
| Views.RequireHttps | pyramid_oauth2_provider/views.py:54-63 | With require_ssl on (`HttpsRefused`), a request by any other scheme than https is refused with 400 invalid_request by both endpoints, whatever else it carries. An https request is decided as with the gate off. |
| Views.AuthorizeWithoutSslCheck | pyramid_oauth2_provider/views.py:54-63 | With require_ssl off, an authorize request is decided as if it came over https. |
| Views.TokenWithoutSslCheck | pyramid_oauth2_provider/views.py:54-63 | With require_ssl off, a token request is decided as if it came over https. |
| Views.ResponseTypeReadLast | pyramid_oauth2_provider/views.py:127-138 | A request refused before response_type is examined gets the same 400 whatever response_type it carries, or none. |
| Models.VerifyOnlyItsSecret | pyramid_oauth2_provider/views.py:250 | `kdf.verify` (`Verify`) accepts a secret against its own derived digest. For a derivation without collisions, it accepts no other secret. |
| Views.AuthenticatedClient | pyramid_oauth2_provider/views.py:230-257 | A client authenticates iff a row has the client_id and kdf.verify accepts the secret against its digest. An unknown client fails closed. |
| Views.DecideToken | pyramid_oauth2_provider/views.py:215-273 | Checks run in order. Not https with require_ssl gives 400. Otherwise, not POST gives 405 iff the method is not POST. With POST, missing credentials give 401 iff none were sent. A failed client authentication gives 400 invalid_request. An unsupported grant_type gives 400 iff it is neither password nor refresh_token. A password or refresh grant is dispatched iff all checks pass and grant_type names it. |
| Views.DecidePassword | pyramid_oauth2_provider/views.py:276-291 | A missing username or password gives 400. A falsy checkauth result (none or 0) gives 401 invalid_client. With both fields and a truthy result, a token is minted for exactly the user id checkauth returned, and a minted token always has such a user. |
| Views.DecideRefresh | pyramid_oauth2_provider/views.py:299-328 | Checks run in order. A missing refresh_token gives 400, then a missing user_id gives 400. No token with that refresh_token gives 401 iff none exists. The token rotates iff it exists, is owned by a client with the authenticated client_id, and has str(user_id) equal to the posted value. A found token that does not rotate, because another client owns it or another user holds it, gives 400 invalid_client. Revocation and expiry of the token are not read. |
| Views.UserCheckIsIdentity | pyramid_oauth2_provider/views.py:324 | The posted `str(u)` matches a token's user iff u is that user. |
| Views.AuthcodeQueryBuilt | pyramid_oauth2_provider/views.py:143-152 | Merging code, and a non-empty state, into `dict(parse_qsl(query))` gives unique keys: code is the new code, state is the given state or else the registered one, and every other key keeps its registered value. |
| Views.AuthcodeLocation | pyramid_oauth2_provider/views.py:142-156 | The redirect location keeps the registered scheme, host, path and params, drops the fragment, and carries the merged query above. |
| Views.CodeAppendKeepsUnique | pyramid_oauth2_provider/models.py:120 | Appending a code whose authcode is unused keeps authcodes unique. |
| Views.UniqueColumnsIdentifyRows | pyramid_oauth2_provider/models.py:50-160 | Under the table invariant (`TablesValid`, which `Store.Valid` applies to the store), the unique columns client_id, uri, authcode, access_token and refresh_token each name at most one row. |
| Views.Store.AddClient | pyramid_oauth2_provider/models.py:52 | A client is inserted iff its client_id is not taken. The other tables are unchanged and the invariant is kept. |
| Views.Store.AddRedirectUri | pyramid_oauth2_provider/models.py:103-113 | A redirect URI is inserted for the client iff no row has that uri (unique across all clients). |
| Views.Store.HandleAuthcode | pyramid_oauth2_provider/views.py:141-156 | Adds exactly one code for the client and user. Redirects to the registered URI's scheme, host, path and params with no fragment. The query keeps every registered parameter with a non-blank value, sets code to the new code, and sets state when a non-empty state was given. A colliding code is a fault with no row added. |
| Views.Store.AuthorizeEndpoint | pyramid_oauth2_provider/views.py:72-138 | A refused request adds no code and answers with the decision's 400. An issued code is stored and redirected to as in HandleAuthcode. |
| Views.Store.HandlePassword | pyramid_oauth2_provider/views.py:276-296 | A refusal leaves the tokens unchanged. A granted request adds exactly one token for the client and checked user, and answers with its five-key bearer body. |
| Views.Store.HandleRefreshToken | pyramid_oauth2_provider/views.py:299-333 | A refusal changes no token. A rotation revokes the found token at now, leaves every other token untouched, and adds one new token for that token's client and user, answering with its five-key bearer body. |
| Views.Store.TokenEndpoint | pyramid_oauth2_provider/views.py:215-273 | A request refused before dispatch changes no table and gets no headers. A dispatched grant has its handler's effect. The two cache headers are appended to request.response, also after a handler error, but not after a failed flush. |
| Scenarios.SetUpRedirects | pyramid_oauth2_provider/tests.py:101-110 | Registering two distinct URIs for one client stores both, in order, and both belong to that client. |
| Scenarios.AmbiguousRedirectScenario | pyramid_oauth2_provider/tests.py:191-197 | With two registered URIs and none supplied, the request is refused with 400 invalid_request. |
| Scenarios.RetainQueryScenario | pyramid_oauth2_provider/tests.py:209-234 | With the second URI and a state supplied, the redirect keeps its host, path and `some=value`, and carries the code and the state. |
| Scenarios.PasswordScenario | pyramid_oauth2_provider/tests.py:296-316 | A password grant with a rotated client secret answers with the five-key bearer body for user 500. |
| Scenarios.ClientCheckScenario | pyramid_oauth2_provider/tests.py:318-343 | No credentials give 401, a wrong secret gives 400, and GET gives 405. |
| Scenarios.RevokedRefreshScenario | pyramid_oauth2_provider/tests.py:424-435 | A hand-revoked token still refreshes, giving a new bearer body for the same user. |
| Scenarios.UnknownRefreshScenario | pyramid_oauth2_provider/tests.py:398-404 | An unknown refresh token gives 401 invalid_token. |
| Scenarios.WrongUserScenario | pyramid_oauth2_provider/tests.py:416-422 | A user_id that is not the token's gives 400 invalid_client. |
| Scenarios.ExpiryScenario | pyramid_oauth2_provider/tests.py:437-455 | Asked at once, a token with expires_in 0 reads as revoked and one with expires_in 10 reads as live. |

## Left out

- The scrypt key derivation (pyramid_oauth2_provider/models.py:71-84, views.py:234-253) is the abstract function `kdf`. `verify(s, h)` is `kdf(s) == h`. The salt, the parameters and the utf-8 encoding are folded into `kdf`.
- `gen_token`, `gen_client_id` and `gen_client_secret` are parameters. The 64-character length of tokens is not modelled. Uniqueness is enforced by the store: a collision is `IntegrityFault`.
- `getClientCredentials` (Basic header parsing and Base64) is not part of this model. Its outcome is the optional `Credentials` of a `TokenRequest`.
- `oauth2_settings('require_ssl')` is the `requireSsl` parameter. Its default of true is the caller's choice.
- `authenticated_userid` and the registry lookup of `IAuthCheck` are parameters: the user id and the function `checkauth`.
- SQLAlchemy, sessions, transactions and `initialize_sql` are left out. The tables are sequences in insertion order, and `first()` takes the earliest matching row. Unique columns are `Store.Valid()`. A failed flush is `IntegrityFault`, with the store left as it was, because the transaction aborts.
- Oauth2Client `_client_secret` is declared unique (models.py:53), but this constraint is not in `Store.Valid()`. Two clients with the same derived secret are allowed by the model.
- `urlparse`, `parse_qsl` and `urlencode` are left out as text: no percent-encoding and no splitting of the query string. `parseUri` gives the parsed parts, and the new query is returned as pairs rather than as an encoded string.
- The wall clock is the integer `now`, in whole seconds. `datetime.utcnow`, `time.mktime` and `fromtimestamp` mix local time and UTC, and that skew is not modelled.
- Models.Client.constructor, Models.Code.constructor, Models.Token.constructor and Models.Token.Refresh each stand for the construction plus the `db.flush()` every caller performs. In the source, `creation_date`, `expires_in` (3600 for a token, 600 for a code) and `revoked` (false) are column defaults (models.py:54, 121-126, 160-165). They are None on the new Python object until the flush. The model sets them at construction, with `now` as `creation_date`.
- `Oauth2Code.is_revoked` (models.py:147-151) reads a non-existent `create_date` and calls `datetime.frometimestamp`, so it raises as written. It is not modelled as an expiry check.
- The deprecated `isRevoked` and `asJSON` wrappers only warn and delegate. They are left out.
- The bodies of the JSON error responses (jsonerrors.py) and their `error_description` texts are left out. An error is its status (400, 401, 405) and its OAuth error kind.
- The assignment `request.client_id = ...` in oauth2_authorize (views.py:103) is not modelled. Nothing in this core reads it afterwards.
- The `view_config` permissions, routing and logging are left out.
- The client's revoked flag is never consulted by either endpoint. The model follows that: `Client.revoked` plays no part in any decision.
- Models.Token.IsRevoked: is_revoked compares `creation_date` truncated to its second (by `timetuple()`) plus `expires_in` with the current instant, microseconds included. On the whole-second clock the model reads that as `creation + expires_in <= now`. It takes the current instant to lie past the start of second `now`. At the single instant `now.000000` the source would still call the token live.
