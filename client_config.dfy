/**
 * pkg/client/config.go: per-endpoint settings, the defaults Client.Do applies
 * to them in place, and the request values the transports see.
 */
module ClientConfig {
  import opened Wrappers
  import opened Durations
  import opened Http
  import opened ClientErrors

  /** RequestInfo: what AuthTokenFn is told about the request. */
  datatype RequestInfo = RequestInfo(httpMethod: string, path: string)

  /** The fields of the *EndpointSettings in a request's context that the decorators read. */
  datatype SettingsView = SettingsView(requireAuth: bool, enableCache: bool, cacheTTL: int)

  /**
   * The request context: the endpoint settings Do stores under EndpointConfigKey,
   * the value under "Authorization", and the deadline (None: no deadline).
   */
  datatype Ctx = Ctx(settings: Option<SettingsView>, incomingAuth: Option<CtxValue>, deadline: Option<int>)

  /** An *http.Request as the transports see it. */
  datatype Request = Request(httpMethod: string, url: URL, header: Header, remoteAddr: string, ctx: Ctx)

  /** ShouldRetry, called with the response (or nil) and the error (or nil). */
  type RetryPredicate = (Option<Response>, Option<string>) -> bool
  /** BackoffStrategy: the pause before the next attempt, in nanoseconds. */
  type Backoff = int -> int
  type AuthTokenFn = RequestInfo -> Result<string, string>

  /** The error a Fallback returns: nil, an *Error (itself possibly nil), or an error of another type. */
  datatype FallbackError = NilError | ClientError(e: Option<Error>) | OtherError(message: string)
  datatype FallbackResult = FallbackResult(response: Option<Response>, error: FallbackError)
  type Fallback = (Request, Option<string>) -> FallbackResult

  /** A gobreaker.CircuitBreaker; only its name is modelled. */
  class CircuitBreaker {
    const name: string

    constructor (name: string)
      ensures this.name == name
    {
      this.name := name;
    }
  }

  const DefaultTimeout: int := 10 * Second
  const DefaultMaxRetries: int := 2

  /** The fields applyDefaults fills, as one value (Headers: None is a nil map). */
  datatype Basics = Basics(timeout: int, maxRetries: int, headers: Option<map<string, string>>)

  const ZeroBasics := Basics(0, 0, None)

  /** applyDefaults on those fields: a zero Timeout, a zero MaxRetries and a nil Headers map are replaced. */
  function Defaulted(b: Basics): (r: Basics)
    ensures r.timeout != 0 && r.maxRetries != 0 && r.headers.Some?
  {
    Basics(
      if b.timeout == 0 then DefaultTimeout else b.timeout,
      if b.maxRetries == 0 then DefaultMaxRetries else b.maxRetries,
      if b.headers.None? then Some(map[]) else b.headers)
  }

  /** applyDefaults(nil): 10s, 2 retries, no headers. */
  lemma DefaultedZero()
    ensures Defaulted(ZeroBasics) == Basics(10 * Second, 2, Some(map[]))
  {
  }

  /** Fields already set are kept. */
  lemma DefaultedKeeps(b: Basics)
    ensures b.timeout != 0 ==> Defaulted(b).timeout == b.timeout
    ensures b.maxRetries != 0 ==> Defaulted(b).maxRetries == b.maxRetries
    ensures b.headers.Some? ==> Defaulted(b).headers == b.headers
  {
  }

  /** Applying the defaults twice is applying them once. */
  lemma DefaultedIdempotent(b: Basics)
    ensures Defaulted(Defaulted(b)) == Defaulted(b)
  {
  }

  /** An explicit MaxRetries of 0 cannot survive: it reads as "unset" and becomes 2. */
  lemma NoZeroRetries(b: Basics)
    requires b.maxRetries == 0
    ensures Defaulted(b).maxRetries == 2
  {
  }

  /** EndpointSettings (RateLimiter, MaxResponseSize and CustomTags are read by nothing modelled here). */
  class EndpointSettings {
    var timeout: int
    var maxRetries: int
    var shouldRetry: Option<RetryPredicate>
    var backoff: Option<Backoff>
    var headers: Option<map<string, string>>
    var requireAuth: bool
    var breaker: CircuitBreaker?
    var authTokenFn: Option<AuthTokenFn>
    var enableCache: bool
    var cacheTTL: int
    var fallback: Option<Fallback>

    /** &EndpointSettings{}: every field zero or nil. */
    constructor ()
      ensures BasicFields() == ZeroBasics
      ensures shouldRetry.None? && backoff.None? && !requireAuth && breaker == null
      ensures authTokenFn.None? && !enableCache && cacheTTL == 0 && fallback.None?
    {
      timeout := 0;
      maxRetries := 0;
      shouldRetry := None;
      backoff := None;
      headers := None;
      requireAuth := false;
      breaker := null;
      authTokenFn := None;
      enableCache := false;
      cacheTTL := 0;
      fallback := None;
    }

    function BasicFields(): Basics
      reads this
    {
      Basics(timeout, maxRetries, headers)
    }

    /** Nothing left for applyDefaults to fill. */
    predicate Complete()
      reads this
    {
      BasicFields() == Defaulted(BasicFields()) && breaker != null
    }

    /** What the decorators read through the request context. */
    function View(): SettingsView
      reads this
    {
      SettingsView(requireAuth, enableCache, cacheTTL)
    }
  }

  /**
   * applyDefaults: fills the given settings in place and returns that same
   * object; nil gets fresh zero settings, filled.  A missing breaker is named
   * after the APP_NAME environment variable.
   */
  method ApplyDefaults(cfg: EndpointSettings?, appName: string) returns (r: EndpointSettings)
    modifies cfg
    ensures cfg != null ==> r == cfg && r.BasicFields() == Defaulted(old(cfg.BasicFields()))
    ensures cfg == null ==> fresh(r) && r.BasicFields() == Defaulted(ZeroBasics)
    ensures cfg == null ==> (r.shouldRetry.None? && r.backoff.None? && !r.requireAuth && r.authTokenFn.None?
      && !r.enableCache && r.cacheTTL == 0 && r.fallback.None?)
    ensures cfg != null ==> unchanged(cfg`shouldRetry, cfg`backoff, cfg`requireAuth, cfg`authTokenFn, cfg`enableCache, cfg`cacheTTL, cfg`fallback)
    ensures cfg != null && old(cfg.breaker) != null ==> r.breaker == old(cfg.breaker)
    ensures (cfg == null || old(cfg.breaker) == null) ==> r.breaker != null && fresh(r.breaker) && r.breaker.name == appName + "-breaker"
    ensures r.Complete()
    ensures cfg != null && old(cfg.Complete()) ==> unchanged(cfg)
  {
    if cfg == null {
      r := new EndpointSettings();
    } else {
      r := cfg;
    }
    if r.timeout == 0 {
      r.timeout := DefaultTimeout;
    }
    if r.maxRetries == 0 {
      r.maxRetries := DefaultMaxRetries;
    }
    if r.breaker == null {
      r.breaker := new CircuitBreaker(appName + "-breaker");
    }
    if r.headers.None? {
      r.headers := Some(map[]);
    }
    DefaultedIdempotent(r.BasicFields());
  }

  /** ValidateEndpointConfig: nothing for nil; otherwise a zero Timeout becomes 10s and a missing breaker is named after the path. */
  method ValidateEndpointConfig(settings: EndpointSettings?, path: string)
    modifies settings
    ensures settings != null ==> settings.timeout == (if old(settings.timeout) == 0 then DefaultTimeout else old(settings.timeout))
    ensures settings != null && old(settings.breaker) != null ==> settings.breaker == old(settings.breaker)
    ensures settings != null && old(settings.breaker) == null ==> settings.breaker != null && fresh(settings.breaker) && settings.breaker.name == path + "-breaker"
    ensures settings != null ==> unchanged(settings`maxRetries, settings`headers, settings`shouldRetry, settings`backoff, settings`requireAuth)
    ensures settings != null ==> unchanged(settings`authTokenFn, settings`enableCache, settings`cacheTTL, settings`fallback)
    ensures settings != null && old(settings.Complete()) ==> unchanged(settings)
  {
    if settings == null {
      return;
    }
    if settings.timeout == 0 {
      settings.timeout := DefaultTimeout;
    }
    if settings.breaker == null {
      settings.breaker := new CircuitBreaker(path + "-breaker");
    }
  }
}
