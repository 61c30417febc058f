/**
 * pkg/tokens/middleware.go: the Gin middlewares that accept a request only with
 * a bearer access token (the "Bearer" scheme of RFC 6750 section 2.1) whose
 * claims verify, and then record the caller in the request context.
 */
module TokensMiddleware {
  import opened Wrappers
  import opened Text
  import opened Http
  import opened Gin
  import opened MemoryCache
  import opened TokensStore
  import opened TokensService

  /** What these middlewares keep in the gin context and the request context. */
  datatype Value = Str(s: string) | ClaimSet(claims: Claims)

  const KeyUserID := "user_id"
  const KeyClaims := "claims"
  const KeyEmail := "email"

  const BearerPrefix := "Bearer "
  const AccessTokenType := "access"

  const ErrMalformedHeader := "missing or malformed Authorization header"
  const ErrEmptyToken := "token is empty"
  const ErrInvalidOrExpired := "invalid or expired token"
  const ErrInvalidTokenType := "invalid token type"
  const ErrNoSubject := "invalid token: no subject"
  const ErrRevoked := "token has been revoked or expired"

  /**
   * The token of an Authorization header: the header must be longer than
   * "Bearer " and start with it, and what follows, without surrounding space,
   * must not be empty.
   */
  function BearerToken(authHeader: string): (r: Result<string, string>)
    ensures r == Err(ErrMalformedHeader) <==> |authHeader| <= |BearerPrefix| || !(BearerPrefix <= authHeader)
    ensures r.Ok? ==> r.value != "" && BearerPrefix <= authHeader && r.value == TrimSpace(authHeader[|BearerPrefix|..])
    ensures r.Err? ==> r.error == ErrMalformedHeader || r.error == ErrEmptyToken
  {
    if |authHeader| <= |BearerPrefix| || !(BearerPrefix <= authHeader) then Err(ErrMalformedHeader)
    else
      var token := TrimSpace(authHeader[|BearerPrefix|..]);
      if token == "" then Err(ErrEmptyToken) else Ok(token)
  }

  /** A token without surrounding space, sent as "Bearer <token>", is read back as it was. */
  lemma BearerRoundTrip(token: string)
    requires token != "" && !IsSpace(token[0]) && !IsSpace(token[|token| - 1])
    ensures BearerToken(BearerPrefix + token) == Ok(token)
  {
    assert (BearerPrefix + token)[|BearerPrefix|..] == token;
    TrimSpaceOfTrimmed(token);
  }

  /** "Bearer " followed by nothing but space names no token. */
  lemma BearerOnlySpace(rest: string)
    requires rest != [] && forall i :: 0 <= i < |rest| ==> IsSpace(rest[i])
    ensures BearerToken(BearerPrefix + rest) == Err(ErrEmptyToken)
  {
    var h := BearerPrefix + rest;
    assert h[|BearerPrefix|..] == rest;
  }

  /** What validateTokenFromHeader hands on: the token, its claims and the whole header. */
  datatype Validated = Validated(token: string, claims: Claims, authHeader: string)

  /** validateTokenFromHeader: the bearer rules, then the service's verification. */
  function ValidateFromHeader(verify: Verifier, secretKey: string, authHeader: string): (r: Result<Validated, string>)
    ensures r.Ok? <==> BearerToken(authHeader).Ok? && verify(secretKey, BearerToken(authHeader).value).Some?
    ensures r.Ok? ==> r.value == Validated(BearerToken(authHeader).value, verify(secretKey, BearerToken(authHeader).value).value, authHeader)
    ensures r.Err? && BearerToken(authHeader).Err? ==> r.error == BearerToken(authHeader).error
    ensures r.Err? && BearerToken(authHeader).Ok? ==> r.error == ErrInvalidOrExpired
  {
    match BearerToken(authHeader)
      case Err(e) => Err(e)
      case Ok(token) =>
        match ValidateTokenAndGetClaims(verify, secretKey, token)
          case Err(_) => Err(ErrInvalidOrExpired)
          case Ok(claims) => Ok(Validated(token, claims, authHeader))
  }

  /** The string under a claim, "" when it is missing or not a string (the value GetStringClaim returns beside its error). */
  function StringClaimOrEmpty(claims: Claims, key: string): (s: string)
    ensures s != "" ==> key in claims && claims[key] == CStr(s)
    ensures key in claims && claims[key].CStr? ==> s == claims[key].s
  {
    match GetStringClaim(claims, key)
      case Ok(s) => s
      case Err(_) => ""
  }

  /** validateTokenType: only access tokens are accepted. */
  function IsAccessToken(claims: Claims): (b: bool)
    ensures b <==> "typ" in claims && claims["typ"] == CStr(AccessTokenType)
  {
    StringClaimOrEmpty(claims, "typ") == AccessTokenType
  }

  /** The entries setUserContext writes into the gin context, or None when the claims name no subject. */
  function UserEntries(claims: Claims, authHeader: string): (r: Option<map<string, Value>>)
    ensures r.Some? <==> StringClaimOrEmpty(claims, "sub") != ""
    ensures r.Some? ==> r.value.Keys >= {"Authorization", KeyUserID, KeyClaims}
    ensures r.Some? ==> r.value["Authorization"] == Str(authHeader) && r.value[KeyClaims] == ClaimSet(claims)
    ensures r.Some? ==> r.value[KeyUserID] == Str(StringClaimOrEmpty(claims, "sub"))
    ensures r.Some? ==> (KeyEmail in r.value <==> StringClaimOrEmpty(claims, "email") != "")
    ensures r.Some? && KeyEmail in r.value ==> r.value[KeyEmail] == Str(StringClaimOrEmpty(claims, "email"))
    ensures r.Some? ==> ("token_type" in r.value <==> "typ" in claims && claims["typ"].CStr?)
    ensures r.Some? && "token_type" in r.value ==> r.value["token_type"] == Str(claims["typ"].s)
    ensures r.Some? ==> r.value.Keys <= {"token_type", "Authorization", KeyUserID, KeyClaims, KeyEmail}
  {
    var userID := StringClaimOrEmpty(claims, "sub");
    if userID == "" then None
    else
      var typed: map<string, Value> := if "typ" in claims && claims["typ"].CStr? then map["token_type" := Str(claims["typ"].s)] else map[];
      var entries := typed["Authorization" := Str(authHeader)][KeyUserID := Str(userID)][KeyClaims := ClaimSet(claims)];
      var email := StringClaimOrEmpty(claims, "email");
      Some(if email != "" then entries[KeyEmail := Str(email)] else entries)
  }

  /** setUserContext: record the caller, or abort with 401 when the claims name no subject. */
  method SetUserContext(c: Context<Value>, claims: Claims, authHeader: string)
    modifies c
    ensures UserEntries(claims, authHeader).None? ==>
      c.aborted && c.status == 401 && c.errorMessage == Some(ErrNoSubject)
      && c.keys == old(c.keys) && c.requestValues == old(c.requestValues) && c.continued == old(c.continued)
    ensures UserEntries(claims, authHeader).Some? ==>
      c.keys == old(c.keys) + UserEntries(claims, authHeader).value
      && c.requestValues == old(c.requestValues)["Authorization" := Str(authHeader)]
      && c.continued && c.aborted == old(c.aborted) && c.status == old(c.status) && c.errorMessage == old(c.errorMessage)
    ensures c.responseHeader == old(c.responseHeader)
  {
    var userID := StringClaimOrEmpty(claims, "sub");
    if userID == "" {
      c.AbortWithJSON(401, ErrNoSubject);
      return;
    }
    ghost var start := c.keys;
    ghost var e: map<string, Value> := map[];
    assert c.keys == start + e;
    if "typ" in claims && claims["typ"].CStr? {
      c.Set("token_type", Str(claims["typ"].s));
      PlusUpdate(start, e, "token_type", Str(claims["typ"].s));
      e := e["token_type" := Str(claims["typ"].s)];
      assert c.keys == start + e;
    }
    c.Set("Authorization", Str(authHeader));
    PlusUpdate(start, e, "Authorization", Str(authHeader));
    e := e["Authorization" := Str(authHeader)];
    assert c.keys == start + e;
    c.Set(KeyUserID, Str(userID));
    PlusUpdate(start, e, KeyUserID, Str(userID));
    e := e[KeyUserID := Str(userID)];
    assert c.keys == start + e;
    c.Set(KeyClaims, ClaimSet(claims));
    PlusUpdate(start, e, KeyClaims, ClaimSet(claims));
    e := e[KeyClaims := ClaimSet(claims)];
    assert c.keys == start + e;
    var email := StringClaimOrEmpty(claims, "email");
    if email != "" {
      c.Set(KeyEmail, Str(email));
      PlusUpdate(start, e, KeyEmail, Str(email));
      e := e[KeyEmail := Str(email)];
      assert c.keys == start + e;
    }
    assert e == UserEntries(claims, authHeader).value;
    c.WithRequestValue("Authorization", Str(authHeader));
    c.Next();
  }

  lemma PlusUpdate(a: map<string, Value>, e: map<string, Value>, k: string, v: Value)
    ensures (a + e)[k := v] == a + e[k := v]
  {
  }

  /** The checks both middlewares run before setUserContext: the header and its verification, then the token type. */
  function Admission(verify: Verifier, secretKey: string, authHeader: string): (r: Result<Validated, string>)
    ensures r.Ok? <==> ValidateFromHeader(verify, secretKey, authHeader).Ok? && IsAccessToken(ValidateFromHeader(verify, secretKey, authHeader).value.claims)
    ensures r.Ok? ==> r == ValidateFromHeader(verify, secretKey, authHeader)
    ensures r.Err? && ValidateFromHeader(verify, secretKey, authHeader).Err? ==> r == ValidateFromHeader(verify, secretKey, authHeader)
    ensures r.Err? && ValidateFromHeader(verify, secretKey, authHeader).Ok? ==> r.error == ErrInvalidTokenType
  {
    match ValidateFromHeader(verify, secretKey, authHeader)
      case Err(e) => Err(e)
      case Ok(v) => if IsAccessToken(v.claims) then Ok(v) else Err(ErrInvalidTokenType)
  }

  /** validateTokenFromHeader and validateTokenType: abort with 401 and the reason, or hand on the validated token. */
  method Admit(c: Context<Value>, verify: Verifier, secretKey: string) returns (v: Option<Validated>)
    modifies c
    ensures var a := Admission(verify, secretKey, c.GetHeader("Authorization"));
      if a.Err? then v.None? && c.aborted && c.status == 401 && c.errorMessage == Some(a.error)
      else v == Some(a.value) && c.aborted == old(c.aborted) && c.status == old(c.status) && c.errorMessage == old(c.errorMessage)
    ensures c.keys == old(c.keys) && c.requestValues == old(c.requestValues) && c.responseHeader == old(c.responseHeader)
    ensures c.continued == old(c.continued)
  {
    var result := ValidateFromHeader(verify, secretKey, c.GetHeader("Authorization"));
    if result.Err? {
      c.AbortWithJSON(401, result.error);
      return None;
    }
    if !IsAccessToken(result.value.claims) {
      c.AbortWithJSON(401, ErrInvalidTokenType);
      return None;
    }
    return Some(result.value);
  }

  /** AuthMiddleware: a verified access token with a subject lets the request through. */
  method AuthMiddleware(c: Context<Value>, verify: Verifier, secretKey: string)
    modifies c
    ensures var a := Admission(verify, secretKey, c.GetHeader("Authorization"));
      if a.Err? then c.aborted && c.status == 401 && c.errorMessage == Some(a.error)
           && c.keys == old(c.keys) && c.requestValues == old(c.requestValues) && c.continued == old(c.continued)
      else match UserEntries(a.value.claims, a.value.authHeader)
        case None => c.aborted && c.status == 401 && c.errorMessage == Some(ErrNoSubject)
                     && c.keys == old(c.keys) && c.requestValues == old(c.requestValues) && c.continued == old(c.continued)
        case Some(e) => c.continued && c.keys == old(c.keys) + e && c.aborted == old(c.aborted) && c.status == old(c.status)
                          && c.errorMessage == old(c.errorMessage)
                          && c.requestValues == old(c.requestValues)["Authorization" := Str(a.value.authHeader)]
    ensures c.responseHeader == old(c.responseHeader)
  {
    var v := Admit(c, verify, secretKey);
    if v.Some? {
      SetUserContext(c, v.value.claims, v.value.authHeader);
    }
  }

  /**
   * CachedAuthMiddleware: as AuthMiddleware, but a token the cache does not
   * hold is rejected; a failing cache lookup lets the request through.
   */
  method CachedAuth(c: Context<Value>, verify: Verifier, secretKey: string, mgr: CacheManager, now: int)
    modifies c
    ensures var a := Admission(verify, secretKey, c.GetHeader("Authorization"));
      if a.Err? then c.aborted && c.status == 401 && c.errorMessage == Some(a.error)
           && c.keys == old(c.keys) && c.requestValues == old(c.requestValues) && c.continued == old(c.continued)
      else if Exists(mgr.codec, mgr.cache.ItemMap(), a.value.token, now) == Ok(false) then
        c.aborted && c.status == 401 && c.errorMessage == Some(ErrRevoked)
           && c.keys == old(c.keys) && c.requestValues == old(c.requestValues) && c.continued == old(c.continued)
      else match UserEntries(a.value.claims, a.value.authHeader)
        case None => c.aborted && c.status == 401 && c.errorMessage == Some(ErrNoSubject)
                     && c.keys == old(c.keys) && c.requestValues == old(c.requestValues) && c.continued == old(c.continued)
        case Some(e) => c.continued && c.keys == old(c.keys) + e && c.aborted == old(c.aborted) && c.status == old(c.status)
                          && c.errorMessage == old(c.errorMessage)
                          && c.requestValues == old(c.requestValues)["Authorization" := Str(a.value.authHeader)]
    ensures c.responseHeader == old(c.responseHeader)
  {
    var v := Admit(c, verify, secretKey);
    if v.None? {
      return;
    }
    var found := mgr.TokenExists(v.value.token, now);
    if found == Ok(false) {
      c.AbortWithJSON(401, ErrRevoked);
      return;
    }
    SetUserContext(c, v.value.claims, v.value.authHeader);
  }
}
