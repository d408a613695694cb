/**
 The persistent entities of the provider: clients with their derived secrets, redirect
 URIs, authorization codes and tokens. Columns that are written once at construction
 are `const`; columns that the code updates afterwards are `var`. Generated values
 (identifiers, secrets, codes, token strings), the clock (integer seconds) and the
 configured key derivation are parameters.
 */
module Models {
  import opened Wrappers

  /** The bytes the configured scrypt derivation produces. */
  type Digest = seq<bv8>

  /** kdf.derive with the configured salt, the utf-8 encoding of the secret included. */
  type Kdf = string -> Digest

  /** kdf.verify(secret, digest) passes exactly when deriving the secret gives the digest. */
  predicate Verify(kdf: Kdf, secret: string, digest: Digest)
  {
    kdf(secret) == digest
  }

  /**
   For a derivation that never maps two secrets to one digest, verify accepts the
   digest of a secret for that secret and for no other.
   */
  lemma VerifyOnlyItsSecret(kdf: Kdf, secret: string, other: string)
    requires forall a, b :: kdf(a) == kdf(b) ==> a == b
    ensures Verify(kdf, secret, kdf(secret))
    ensures Verify(kdf, other, kdf(secret)) <==> other == secret
  {
  }

  /** Column defaults: a token lives an hour, an authorization code ten minutes. */
  const TokenLifetime: int := 60 * 60
  const CodeLifetime: int := 10 * 60

  /** The values that appear in a token's JSON form. */
  datatype Json = JStr(s: string) | JInt(i: int)

  /** The four keys as_json always writes. */
  const TokenJsonKeys: set<string> := {"access_token", "refresh_token", "user_id", "expires_in"}

  class Client {
    const clientId: string
    var clientSecret: Digest
    var revoked: bool
    var revocationDate: Option<int>

    /** A new client: a generated id, and the digest of a generated secret, which is not kept. */
    constructor (generatedId: string, generatedSecret: string, kdf: Kdf)
      ensures clientId == generatedId
      ensures clientSecret == kdf(generatedSecret)
      ensures !revoked && revocationDate == None
    {
      clientId := generatedId;
      clientSecret := [];
      revoked := false;
      revocationDate := None;
      new;
      SetClientSecret(generatedSecret, kdf);
    }

    /** The client_secret property setter: only the derived digest is stored. */
    method SetClientSecret(secret: string, kdf: Kdf)
      modifies this
      ensures clientSecret == kdf(secret)
      ensures revoked == old(revoked) && revocationDate == old(revocationDate)
    {
      clientSecret := kdf(secret);
    }

    /** Rotates the secret: the raw secret goes back to the caller, its digest is stored. */
    method NewClientSecret(generated: string, kdf: Kdf) returns (secret: string)
      modifies this
      ensures secret == generated
      ensures clientSecret == kdf(secret) && Verify(kdf, secret, clientSecret)
      ensures revoked == old(revoked) && revocationDate == old(revocationDate)
    {
      secret := generated;
      SetClientSecret(secret, kdf);
    }

    /** Marks the client revoked at time now; a repeated call moves the date to the new now. */
    method Revoke(now: int)
      modifies this
      ensures revoked && revocationDate == Some(now)
      ensures clientSecret == old(clientSecret)
    {
      revoked := true;
      revocationDate := Some(now);
    }

    /** The revoked flag, read without side effects. */
    method IsRevoked() returns (r: bool)
      ensures r == revoked
    {
      r := revoked;
    }
  }

  /** A registered redirect URI of a client, kept as the string it was registered with. */
  datatype RedirectUri = RedirectUri(client: Client, uri: string)

  class Code {
    const client: Client
    const userId: int
    const authcode: string
    const creationDate: int
    var expiresIn: int
    var revoked: bool
    var revocationDate: Option<int>

    /** A new code for the client and user, with a generated code string and the column defaults. */
    constructor (client: Client, userId: int, generatedCode: string, now: int)
      ensures this.client == client && this.userId == userId && authcode == generatedCode
      ensures creationDate == now && expiresIn == CodeLifetime
      ensures !revoked && revocationDate == None
    {
      this.client := client;
      this.userId := userId;
      authcode := generatedCode;
      creationDate := now;
      expiresIn := CodeLifetime;
      revoked := false;
      revocationDate := None;
    }

    /** Marks the code revoked at time now. */
    method Revoke(now: int)
      modifies this
      ensures revoked && revocationDate == Some(now)
      ensures expiresIn == old(expiresIn)
    {
      revoked := true;
      revocationDate := Some(now);
    }
  }

  class Token {
    const client: Client
    const userId: int
    const accessToken: string
    const refreshToken: string
    const creationDate: int
    var expiresIn: int
    var revoked: bool
    var revocationDate: Option<int>

    /** A new token pair for the client and user; the two strings come from two generator calls. */
    constructor (client: Client, userId: int, generatedAccess: string, generatedRefresh: string, now: int)
      ensures this.client == client && this.userId == userId
      ensures accessToken == generatedAccess && refreshToken == generatedRefresh
      ensures creationDate == now && expiresIn == TokenLifetime
      ensures !revoked && revocationDate == None
    {
      this.client := client;
      this.userId := userId;
      accessToken := generatedAccess;
      refreshToken := generatedRefresh;
      creationDate := now;
      expiresIn := TokenLifetime;
      revoked := false;
      revocationDate := None;
    }

    /** Marks the token revoked at time now; a repeated call moves the date to the new now. */
    method Revoke(now: int)
      modifies this
      ensures revoked && revocationDate == Some(now)
      ensures expiresIn == old(expiresIn)
    {
      revoked := true;
      revocationDate := Some(now);
    }

    /**
     The lifetime has run out. is_revoked truncates the creation time to its whole
     second (timetuple() drops the microseconds) and compares creation + expires_in
     with the precise current instant, so on a clock of whole seconds a token is
     expired from the second creation + expires_in on.
     */
    predicate Expired(now: int)
      reads this
    {
      creationDate + expiresIn <= now
    }

    /**
     Revoked by flag or by time. An expired token is revoked on the spot (and its
     revocation date set to now, on every call), so a true answer never turns false.
     */
    method IsRevoked(now: int) returns (r: bool)
      modifies this
      ensures r <==> old(revoked) || Expired(now)
      ensures old(revoked) ==> r
      ensures revoked == r && expiresIn == old(expiresIn)
      ensures revocationDate == if Expired(now) then Some(now) else old(revocationDate)
    {
      if Expired(now) {
        Revoke(now);
      }
      r := revoked;
    }

    /**
     Revokes this token and returns a new one for the same client and user; this token
     keeps every other field.
     */
    method Refresh(generatedAccess: string, generatedRefresh: string, now: int) returns (t: Token)
      modifies this
      ensures revoked && revocationDate == Some(now) && expiresIn == old(expiresIn)
      ensures fresh(t)
      ensures t.client == client && t.userId == userId
      ensures t.accessToken == generatedAccess && t.refreshToken == generatedRefresh
      ensures t.creationDate == now && t.expiresIn == TokenLifetime
      ensures !t.revoked && t.revocationDate == None
    {
      Revoke(now);
      t := new Token(client, userId, generatedAccess, generatedRefresh, now);
    }

    /**
     The caller's keyword arguments with the four token fields written over them:
     the token's values win on a key collision, every other argument is kept.
     */
    function AsJson(kwargs: map<string, Json>): (r: map<string, Json>)
      reads this
      ensures r.Keys == kwargs.Keys + TokenJsonKeys
      ensures r["access_token"] == JStr(accessToken) && r["refresh_token"] == JStr(refreshToken)
      ensures r["user_id"] == JInt(userId) && r["expires_in"] == JInt(expiresIn)
      ensures forall k :: k in kwargs && k !in TokenJsonKeys ==> r[k] == kwargs[k]
    {
      kwargs + map["access_token" := JStr(accessToken), "refresh_token" := JStr(refreshToken),
                   "user_id" := JInt(userId), "expires_in" := JInt(expiresIn)]
    }
  }

  /** The token_type keyword that both grants pass to as_json. */
  const BearerKwargs: map<string, Json> := map["token_type" := JStr("bearer")]

  /** The body a grant answers with for a new token: as_json with token_type='bearer'. */
  function BearerBody(access: string, refresh: string, userId: int): map<string, Json>
  {
    map["token_type" := JStr("bearer"), "access_token" := JStr(access), "refresh_token" := JStr(refresh),
        "user_id" := JInt(userId), "expires_in" := JInt(TokenLifetime)]
  }

  /** A token with the default lifetime renders as BearerBody of its own columns. */
  lemma NewTokenJson(t: Token)
    requires t.expiresIn == TokenLifetime
    ensures t.AsJson(BearerKwargs) == BearerBody(t.accessToken, t.refreshToken, t.userId)
  {
    assert t.AsJson(BearerKwargs).Keys == BearerBody(t.accessToken, t.refreshToken, t.userId).Keys;
  }

  /**
   Expiry is for good: once a token has expired it stays expired. A token is live
   in the second before creation + expires_in and expired from that second on.
   */
  lemma ExpiryIsFinal(t: Token, now: int, later: int)
    requires now <= later
    ensures t.Expired(now) ==> t.Expired(later)
    ensures !t.Expired(t.creationDate + t.expiresIn - 1)
    ensures t.Expired(t.creationDate + t.expiresIn)
  {
  }

  /** A grant response body has exactly five keys, token_type being "bearer". */
  lemma BearerJsonHasFiveKeys(t: Token)
    ensures |t.AsJson(BearerKwargs)| == 5
    ensures t.AsJson(BearerKwargs)["token_type"] == JStr("bearer")
  {
    var r := t.AsJson(BearerKwargs);
    assert r.Keys == {"token_type"} + TokenJsonKeys;
    assert "token_type" !in TokenJsonKeys;
  }
}
