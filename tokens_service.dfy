/**
 * pkg/tokens/service.go: the token service's configuration rules, the claim sets
 * of the tokens it issues, its cache guards and the typed claim getters.  Signing
 * and verifying (HS256 through golang-jwt) are functions passed in; the clock
 * reading is a parameter.
 */
module TokensService {
  import opened Wrappers
  import opened Durations
  import opened SortedSet
  import opened MemoryCache
  import opened TokensStore

  /** A claim value: a string, a whole number, a []string, a []interface{}, or anything else. */
  datatype ClaimValue = CStr(s: string) | CInt(i: int) | CStrings(ss: seq<string>) | CList(items: seq<ClaimValue>) | COther

  /** jwt.MapClaims. */
  type Claims = map<string, ClaimValue>

  const ErrInvalidClaims := "invalid claims"
  const ErrInvalidToken := "invalid token"
  const ErrNoSecret := "secret key is required"
  const ErrNoIssuer := "issuer is required"
  const ErrNilConfig := "tokens: config is nil"

  /** ShortLivedTokenConfig (TokenConfig plus the refresh lifetime). */
  class ShortLivedTokenConfig {
    var secretKey: string
    var issuer: string
    var accessTokenExp: int
    var refreshTokenExp: int

    constructor (secretKey: string, issuer: string, accessTokenExp: int, refreshTokenExp: int)
      ensures this.secretKey == secretKey && this.issuer == issuer
      ensures this.accessTokenExp == accessTokenExp && this.refreshTokenExp == refreshTokenExp
    {
      this.secretKey, this.issuer := secretKey, issuer;
      this.accessTokenExp, this.refreshTokenExp := accessTokenExp, refreshTokenExp;
    }
  }

  /** LongLivedTokenConfig. */
  class LongLivedTokenConfig {
    var secretKey: string
    var issuer: string
    var accessTokenExp: int

    constructor (secretKey: string, issuer: string, accessTokenExp: int)
      ensures this.secretKey == secretKey && this.issuer == issuer && this.accessTokenExp == accessTokenExp
    {
      this.secretKey, this.issuer, this.accessTokenExp := secretKey, issuer, accessTokenExp;
    }
  }

  /** DefaultShortLivedConfig: the key and issuer come from TOKEN_SECRET_KEY and TOKEN_ISSUER. */
  method DefaultShortLivedConfig(envSecret: string, envIssuer: string) returns (cfg: ShortLivedTokenConfig)
    ensures fresh(cfg) && cfg.secretKey == envSecret && cfg.issuer == envIssuer
    ensures cfg.accessTokenExp == 15 * Minute && cfg.refreshTokenExp == 30 * Day
  {
    cfg := new ShortLivedTokenConfig(envSecret, envIssuer, 15 * Minute, 30 * 24 * Hour);
  }

  /** DefaultLongLivedConfig. */
  method DefaultLongLivedConfig(envSecret: string, envIssuer: string) returns (cfg: LongLivedTokenConfig)
    ensures fresh(cfg) && cfg.secretKey == envSecret && cfg.issuer == envIssuer
    ensures cfg.accessTokenExp == 30 * Day
  {
    cfg := new LongLivedTokenConfig(envSecret, envIssuer, 30 * 24 * Hour);
  }

  /** The configuration copy a service keeps: which kind it is decides what it may issue. */
  datatype TokenSettings =
    | ShortLived(secretKey: string, issuer: string, accessTokenExp: int, refreshTokenExp: int)
    | LongLived(secretKey: string, issuer: string, accessTokenExp: int)

  /** A jwt.Parse with the service's key and signing method: the claims of a valid token, None otherwise. */
  type Verifier = (string, string) -> Option<Claims>

  /** token.SignedString with a key: the token text or the library's error. */
  type Signer = (string, Claims) -> Result<string, string>

  /** A ServiceOption; WithCache is the only one. */
  datatype ServiceOption = WithCache(manager: CacheManager)

  class JwtService {
    const tokenCfg: TokenSettings
    var cacheMgr: CacheManager?

    constructor (tokenCfg: TokenSettings)
      ensures this.tokenCfg == tokenCfg && cacheMgr == null
    {
      this.tokenCfg := tokenCfg;
      cacheMgr := null;
    }

    ghost predicate Valid()
      reads this, cacheMgr, if cacheMgr != null then {cacheMgr.cache} else {}
    {
      cacheMgr != null ==> cacheMgr.Valid()
    }

    /**
     * GenerateTokens: an access token carrying the caller's claims and a refresh
     * token carrying only the base claims; only a short-lived service issues them.
     */
    method GenerateTokens(userID: string, email: string, custom: Claims, now: int, sign: Signer)
      returns (r: Result<(string, string, int), string>)
      ensures tokenCfg.LongLived? ==> r == Err("GenerateTokens can only be used with short-lived token configuration")
      ensures tokenCfg.ShortLived? ==>
        var access := AccessClaims(tokenCfg.issuer, userID, email, custom, now, tokenCfg.accessTokenExp);
        var refresh := RefreshClaims(tokenCfg.issuer, userID, now, tokenCfg.refreshTokenExp);
        r == (match sign(tokenCfg.secretKey, access)
          case Err(e) => Err("sign access token: " + e)
          case Ok(a) => match sign(tokenCfg.secretKey, refresh)
            case Err(e) => Err("sign refresh token: " + e)
            case Ok(b) => Ok((a, b, now + tokenCfg.refreshTokenExp)))
    {
      if !tokenCfg.ShortLived? {
        return Err("GenerateTokens can only be used with short-lived token configuration");
      }
      var accessClaims := BaseClaims(tokenCfg.issuer, userID, email, custom, now);
      accessClaims := accessClaims["exp" := CInt(UnixSeconds(now + tokenCfg.accessTokenExp))]["typ" := CStr("access")];
      var refreshExp := now + tokenCfg.refreshTokenExp;
      var refreshClaims := BaseClaims(tokenCfg.issuer, userID, "", map[], now);
      refreshClaims := refreshClaims["exp" := CInt(UnixSeconds(refreshExp))]["typ" := CStr("refresh")];
      var accessToken := sign(tokenCfg.secretKey, accessClaims);
      if accessToken.Err? {
        return Err("sign access token: " + accessToken.error);
      }
      var refreshToken := sign(tokenCfg.secretKey, refreshClaims);
      if refreshToken.Err? {
        return Err("sign refresh token: " + refreshToken.error);
      }
      r := Ok((accessToken.value, refreshToken.value, refreshExp));
    }

    /** GenerateToken: one access token and its expiry, for either kind of service. */
    method GenerateToken(userID: string, email: string, custom: Claims, now: int, sign: Signer)
      returns (r: Result<(string, int), string>)
      ensures r == (match sign(tokenCfg.secretKey, AccessClaims(tokenCfg.issuer, userID, email, custom, now, tokenCfg.accessTokenExp))
        case Err(e) => Err("sign access token: " + e)
        case Ok(a) => Ok((a, now + tokenCfg.accessTokenExp)))
    {
      var tokenExp := now + tokenCfg.accessTokenExp;
      var claims := BaseClaims(tokenCfg.issuer, userID, email, custom, now);
      claims := claims["exp" := CInt(UnixSeconds(tokenExp))]["typ" := CStr("access")];
      var accessToken := sign(tokenCfg.secretKey, claims);
      if accessToken.Err? {
        return Err("sign access token: " + accessToken.error);
      }
      r := Ok((accessToken.value, tokenExp));
    }

    /**
     * AddTokenToCache: without a manager nothing happens; otherwise an expiry in
     * the past, then an empty user, then the zero time are refused before the store is asked.
     */
    method AddTokenToCache(token: string, userID: string, expiresAt: int, now: int) returns (err: Option<string>)
      requires Valid()
      requires cacheMgr != null && AddGuard(userID, expiresAt, now).None? && token != "" && expiresAt > now ==>
        cacheMgr.cache.items.Some?
      modifies if cacheMgr != null then {cacheMgr.cache} else {}
      ensures Valid()
      ensures cacheMgr == null ==> err.None?
      ensures cacheMgr != null && AddGuard(userID, expiresAt, now).Some? ==>
        err == AddGuard(userID, expiresAt, now) && unchanged(cacheMgr.cache)
      ensures cacheMgr != null && AddGuard(userID, expiresAt, now).None? && token == "" ==>
        err == Some("token and userID cannot be empty") && unchanged(cacheMgr.cache)
      ensures cacheMgr != null && AddGuard(userID, expiresAt, now).None? && token != "" && expiresAt == now ==>
        err == Some("token already expired") && unchanged(cacheMgr.cache)
      ensures cacheMgr != null && AddGuard(userID, expiresAt, now).None? && token != "" && expiresAt > now ==> (err.None?
        && cacheMgr.cache.items == Some(AfterAdd(cacheMgr.codec, old(cacheMgr.cache.ItemMap()), token, userID, expiresAt, now))
        && cacheMgr.cache.sortedSets == SetsAfterAdd(old(cacheMgr.cache.sortedSets), UserTokensKey(userID), UnixSeconds(expiresAt), token))
    {
      if cacheMgr == null {
        return None;
      }
      if expiresAt < now {
        return Some("token has already expired");
      }
      if userID == "" {
        return Some("user ID is required");
      }
      if expiresAt == ZeroTime {
        return Some("expiration time is required");
      }
      err := cacheMgr.AddToken(token, userID, expiresAt, now);
    }

    /** RemoveTokenFromCache: a nil no-op without a manager. */
    method RemoveTokenFromCache(token: string, now: int) returns (err: Option<string>)
      requires Valid()
      modifies if cacheMgr != null then {cacheMgr.cache} else {}
      ensures Valid()
      ensures cacheMgr == null ==> err.None?
      ensures cacheMgr != null && err.None? && token != "" ==>
        Exists(cacheMgr.codec, cacheMgr.cache.ItemMap(), token, now) == Ok(false)
    {
      if cacheMgr == null {
        return None;
      }
      err := cacheMgr.RemoveToken(token, now);
    }

    /** InvalidateAllUserTokens: an error without a manager or a user. */
    method InvalidateAllUserTokens(userID: string) returns (err: Option<string>)
      requires Valid()
      modifies if cacheMgr != null then {cacheMgr.cache} else {}
      ensures Valid()
      ensures cacheMgr == null ==> err == Some("cache manager not configured")
      ensures cacheMgr != null && userID == "" ==> err == Some("user ID is required") && unchanged(cacheMgr.cache)
      ensures cacheMgr != null && userID != "" ==> (err.None?
        && cacheMgr.cache.ItemMap() == old(cacheMgr.cache.ItemMap()) - TokenKeys(UserTokens(old(cacheMgr.cache.sortedSets), userID))
        && cacheMgr.cache.sortedSets == old(cacheMgr.cache.sortedSets) - {UserTokensKey(userID)})
    {
      if cacheMgr == null {
        return Some("cache manager not configured");
      }
      if userID == "" {
        return Some("user ID is required");
      }
      err := cacheMgr.InvalidateAllUserTokens(userID);
    }

    /** TokenExistsInCache: (false, nil) without a manager. */
    method TokenExistsInCache(token: string, now: int) returns (r: Result<bool, string>)
      ensures cacheMgr == null || token == "" ==> r == Ok(false)
      ensures cacheMgr != null && token != "" ==> r == Exists(cacheMgr.codec, cacheMgr.cache.ItemMap(), token, now)
    {
      if cacheMgr == null {
        return Ok(false);
      }
      r := cacheMgr.TokenExists(token, now);
    }
  }

  /** time.Time{}: January 1 of year 1, UTC, in nanoseconds from the Unix epoch. */
  const ZeroTime: int := -62_135_596_800 * Second

  /** The guards of AddTokenToCache in their order; None when all pass. */
  function AddGuard(userID: string, expiresAt: int, now: int): (g: Option<string>)
    ensures g.None? <==> expiresAt >= now && userID != "" && expiresAt != ZeroTime
    ensures expiresAt < now ==> g == Some("token has already expired")
  {
    if expiresAt < now then Some("token has already expired")
    else if userID == "" then Some("user ID is required")
    else if expiresAt == ZeroTime then Some("expiration time is required")
    else None
  }

  /** The zero time is refused as already expired whenever the clock reads later than year 1. */
  lemma ZeroTimeIsPast(userID: string, now: int)
    requires now > ZeroTime
    ensures AddGuard(userID, ZeroTime, now) == Some("token has already expired")
  {
  }

  /**
   * NewService: a nil configuration, then an empty key, then an empty issuer are
   * refused; zero lifetimes in the caller's configuration become 4h and 24h, and
   * the service keeps a copy.  The options run in order.
   */
  method NewService(cfg: ShortLivedTokenConfig?, opts: seq<ServiceOption>) returns (r: Result<JwtService, string>)
    modifies if cfg != null then {cfg} else {}
    ensures cfg == null ==> r == Err(ErrNilConfig)
    ensures cfg != null && cfg.secretKey == "" ==> r == Err(ErrNoSecret) && unchanged(cfg)
    ensures cfg != null && cfg.secretKey != "" && cfg.issuer == "" ==> r == Err(ErrNoIssuer) && unchanged(cfg)
    ensures cfg != null && cfg.secretKey != "" && cfg.issuer != "" ==> (r.Ok? && fresh(r.value)
      && cfg.accessTokenExp == (if old(cfg.accessTokenExp) == 0 then 4 * Hour else old(cfg.accessTokenExp))
      && cfg.refreshTokenExp == (if old(cfg.refreshTokenExp) == 0 then 24 * Hour else old(cfg.refreshTokenExp))
      && cfg.secretKey == old(cfg.secretKey) && cfg.issuer == old(cfg.issuer)
      && r.value.tokenCfg == ShortLived(cfg.secretKey, cfg.issuer, cfg.accessTokenExp, cfg.refreshTokenExp)
      && r.value.cacheMgr == LastManager(opts))
  {
    if cfg == null {
      return Err(ErrNilConfig);
    }
    if cfg.secretKey == "" {
      return Err(ErrNoSecret);
    }
    if cfg.issuer == "" {
      return Err(ErrNoIssuer);
    }
    if cfg.accessTokenExp == 0 {
      cfg.accessTokenExp := 4 * Hour;
    }
    if cfg.refreshTokenExp == 0 {
      cfg.refreshTokenExp := 24 * Hour;
    }
    var svc := new JwtService(ShortLived(cfg.secretKey, cfg.issuer, cfg.accessTokenExp, cfg.refreshTokenExp));
    ApplyOptions(svc, opts);
    r := Ok(svc);
  }

  /** NewLongLivedService: the same checks; a zero lifetime becomes 30 days. */
  method NewLongLivedService(cfg: LongLivedTokenConfig?, opts: seq<ServiceOption>) returns (r: Result<JwtService, string>)
    modifies if cfg != null then {cfg} else {}
    ensures cfg == null ==> r == Err(ErrNilConfig)
    ensures cfg != null && cfg.secretKey == "" ==> r == Err(ErrNoSecret) && unchanged(cfg)
    ensures cfg != null && cfg.secretKey != "" && cfg.issuer == "" ==> r == Err(ErrNoIssuer) && unchanged(cfg)
    ensures cfg != null && cfg.secretKey != "" && cfg.issuer != "" ==> (r.Ok? && fresh(r.value)
      && cfg.accessTokenExp == (if old(cfg.accessTokenExp) == 0 then 30 * Day else old(cfg.accessTokenExp))
      && cfg.secretKey == old(cfg.secretKey) && cfg.issuer == old(cfg.issuer)
      && r.value.tokenCfg == LongLived(cfg.secretKey, cfg.issuer, cfg.accessTokenExp)
      && r.value.cacheMgr == LastManager(opts))
  {
    if cfg == null {
      return Err(ErrNilConfig);
    }
    if cfg.secretKey == "" {
      return Err(ErrNoSecret);
    }
    if cfg.issuer == "" {
      return Err(ErrNoIssuer);
    }
    if cfg.accessTokenExp == 0 {
      cfg.accessTokenExp := 30 * 24 * Hour;
    }
    var svc := new JwtService(LongLived(cfg.secretKey, cfg.issuer, cfg.accessTokenExp));
    ApplyOptions(svc, opts);
    r := Ok(svc);
  }

  /** The manager the last WithCache installs, null when there is none. */
  function LastManager(opts: seq<ServiceOption>): CacheManager? {
    if opts == [] then null else opts[|opts| - 1].manager
  }

  /** `for _, opt := range opts { opt(svc) }`. */
  method ApplyOptions(svc: JwtService, opts: seq<ServiceOption>)
    modifies svc
    ensures svc.cacheMgr == (if opts == [] then old(svc.cacheMgr) else LastManager(opts))
  {
    var i := 0;
    while i < |opts|
      invariant 0 <= i <= |opts|
      invariant svc.cacheMgr == (if i == 0 then old(svc.cacheMgr) else opts[i - 1].manager)
    {
      svc.cacheMgr := opts[i].manager;
      i := i + 1;
    }
  }

  /** The claims every token starts from, before exp and typ are set. */
  function Base(issuer: string, userID: string, email: string, custom: Claims, now: int): Claims {
    var iat := CInt(UnixSeconds(now));
    var fixed := map["sub" := CStr(userID), "iss" := CStr(issuer), "iat" := iat, "nbf" := iat];
    (if email != "" then fixed["email" := CStr(email)] else fixed) + custom
  }

  /** baseClaims: the registered claims, the email when given, then every custom claim over them. */
  method BaseClaims(issuer: string, userID: string, email: string, custom: Claims, now: int) returns (claims: Claims)
    ensures claims == Base(issuer, userID, email, custom, now)
  {
    var iat := CInt(UnixSeconds(now));
    claims := map["sub" := CStr(userID), "iss" := CStr(issuer), "iat" := iat, "nbf" := iat];
    if email != "" {
      claims := claims["email" := CStr(email)];
    }
    ghost var start := claims;
    var pending := custom.Keys;
    while pending != {}
      invariant pending <= custom.Keys
      invariant claims.Keys == start.Keys + (custom.Keys - pending)
      invariant forall k | k in claims :: claims[k] == if k in custom && k !in pending then custom[k] else start[k]
      decreases pending
    {
      var k :| k in pending;
      claims := claims[k := custom[k]];
      pending := pending - {k};
    }
    MergedMap(start, custom, claims);
  }

  lemma MergedMap(a: Claims, b: Claims, c: Claims)
    requires c.Keys == a.Keys + b.Keys
    requires forall k | k in c :: c[k] == if k in b then b[k] else a[k]
    ensures c == a + b
  {
  }

  /** The claims of an access token. */
  function AccessClaims(issuer: string, userID: string, email: string, custom: Claims, now: int, lifetime: int): Claims {
    Base(issuer, userID, email, custom, now)["exp" := CInt(UnixSeconds(now + lifetime))]["typ" := CStr("access")]
  }

  /** The claims of a refresh token: no email and no custom claims. */
  function RefreshClaims(issuer: string, userID: string, now: int, lifetime: int): Claims {
    Base(issuer, userID, "", map[], now)["exp" := CInt(UnixSeconds(now + lifetime))]["typ" := CStr("refresh")]
  }

  /**
   * An access token always says typ "access" and expires a lifetime after issue,
   * whatever the custom claims; the custom claims win everywhere else, and the
   * registered claims fill in what they leave out.
   */
  lemma AccessClaimsShape(issuer: string, userID: string, email: string, custom: Claims, now: int, lifetime: int)
    ensures var c := AccessClaims(issuer, userID, email, custom, now, lifetime);
      c["typ"] == CStr("access") && c["exp"] == CInt(UnixSeconds(now + lifetime))
      && (forall k | k in custom && k != "typ" && k != "exp" :: k in c && c[k] == custom[k])
      && ("sub" !in custom ==> c["sub"] == CStr(userID))
      && ("iss" !in custom ==> c["iss"] == CStr(issuer))
      && ("iat" !in custom ==> c["iat"] == CInt(UnixSeconds(now)))
      && ("nbf" !in custom ==> c["nbf"] == CInt(UnixSeconds(now)))
      && ("email" !in custom ==> ("email" in c <==> email != "") && (email != "" ==> c["email"] == CStr(email)))
  {
  }

  /** A refresh token carries exactly sub, iss, iat, nbf, exp and typ "refresh". */
  lemma RefreshClaimsShape(issuer: string, userID: string, now: int, lifetime: int)
    ensures var c := RefreshClaims(issuer, userID, now, lifetime);
      c.Keys == {"sub", "iss", "iat", "nbf", "exp", "typ"}
      && c["typ"] == CStr("refresh") && c["sub"] == CStr(userID) && c["iss"] == CStr(issuer)
      && c["exp"] == CInt(UnixSeconds(now + lifetime))
  {
  }

  /** ValidateTokenAndGetClaims: any parse or signature failure is ErrInvalidToken. */
  function ValidateTokenAndGetClaims(verify: Verifier, secretKey: string, token: string): (r: Result<Claims, string>)
    ensures r.Ok? <==> verify(secretKey, token).Some?
    ensures r.Ok? ==> r.value == verify(secretKey, token).value
    ensures r.Err? ==> r.error == ErrInvalidToken
  {
    match verify(secretKey, token)
      case None => Err(ErrInvalidToken)
      case Some(c) => Ok(c)
  }

  function IsTokenValid(verify: Verifier, secretKey: string, token: string): (b: bool)
    ensures b <==> ValidateTokenAndGetClaims(verify, secretKey, token).Ok?
  {
    ValidateTokenAndGetClaims(verify, secretKey, token).Ok?
  }

  /** GetClaim: a present claim of any type. */
  function GetClaim(claims: Claims, key: string): (r: Result<ClaimValue, string>)
    ensures r.Ok? <==> key in claims
    ensures r.Ok? ==> r.value == claims[key]
    ensures r.Err? ==> r.error == ErrInvalidClaims
  {
    if key in claims then Ok(claims[key]) else Err(ErrInvalidClaims)
  }

  /** GetStringClaim: a present claim holding a string. */
  function GetStringClaim(claims: Claims, key: string): (r: Result<string, string>)
    ensures r.Ok? <==> key in claims && claims[key].CStr?
    ensures r.Ok? ==> GetClaim(claims, key) == Ok(CStr(r.value))
    ensures r.Err? ==> r.error == ErrInvalidClaims
  {
    if key in claims && claims[key].CStr? then Ok(claims[key].s) else Err(ErrInvalidClaims)
  }

  predicate AllStrings(items: seq<ClaimValue>) {
    forall i :: 0 <= i < |items| ==> items[i].CStr?
  }

  /** GetStringSliceClaim: a []string as it is, or a []interface{} whose elements are all strings, converted in order. */
  method GetStringSliceClaim(claims: Claims, key: string) returns (r: Result<seq<string>, string>)
    ensures r.Ok? <==> key in claims && (claims[key].CStrings? || (claims[key].CList? && AllStrings(claims[key].items)))
    ensures r.Ok? && claims[key].CStrings? ==> r.value == claims[key].ss
    ensures r.Ok? && claims[key].CList? ==>
      (|r.value| == |claims[key].items| && forall i :: 0 <= i < |r.value| ==> claims[key].items[i] == CStr(r.value[i]))
    ensures r.Err? ==> r.error == ErrInvalidClaims
  {
    if key !in claims {
      return Err(ErrInvalidClaims);
    }
    match claims[key]
    case CStrings(ss) =>
      return Ok(ss);
    case CList(items) =>
      var result := new string[|items|];
      var i := 0;
      while i < |items|
        invariant 0 <= i <= |items|
        invariant forall j :: 0 <= j < i ==> items[j] == CStr(result[j])
      {
        if !items[i].CStr? {
          return Err(ErrInvalidClaims);
        }
        result[i] := items[i].s;
        i := i + 1;
      }
      return Ok(result[..]);
    case _ =>
      return Err(ErrInvalidClaims);
  }
}
