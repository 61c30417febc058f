/**
 * pkg/client/middlewares.go: the RoundTripper decorators.  A transport is the
 * base transport wrapped in decorators, outermost first; running it on a
 * request gives an outcome, the request header as the decorators left it
 * (they change the request's header map in place), and the new state of the
 * collaborators.  The network, uuid generation, rate limiters and circuit
 * breakers are given by an environment of functions indexed by how many
 * times each was consulted before; the cache backend is the memory cache's
 * item map.
 */
module ClientMiddlewares {
  import opened Wrappers
  import opened Text
  import opened Http
  import opened ClientConfig
  import opened CacheTypes
  import opened MemoryCache

  type LimiterId = nat
  type BreakerId = nat

  /**
   * The collaborators: the instant of the call, APP_NAME, what the network
   * answers to the n-th request, the n-th fresh uuid, what the n-th Wait on a
   * limiter returns, and whether the n-th Execute of a breaker rejects (with
   * the breaker's error) or runs the operation (None).
   */
  datatype Env = Env(
    now: int,
    appName: string,
    network: (nat, Request) -> Outcome,
    uuid: nat -> string,
    wait: (LimiterId, nat) -> Option<string>,
    admit: (BreakerId, nat) -> Option<string>)

  /** What a breaker is told after running an operation: whether it succeeded. */
  datatype BreakerReport = BreakerReport(breaker: BreakerId, success: bool)

  datatype HookEvent = PreRequest(request: Request) | PostRequest(request: Request, status: int) | OnError(request: Request, error: string)

  /**
   * The collaborators' state: how often each oracle was consulted, the breaker
   * reports, the cache items, the hook calls, and (for Client.Do) the attempts
   * made and the pauses slept.
   */
  datatype State = State(
    sent: nat,
    uuidsTaken: nat,
    waits: nat,
    executions: nat,
    reports: seq<BreakerReport>,
    cache: Items,
    hookLog: seq<HookEvent>,
    attempts: nat,
    sleeps: seq<int>)

  datatype RateLimitConfig = RateLimitConfig(limiterFor: Option<(string, string) -> Option<LimiterId>>)
  datatype CircuitBreakerConfig = CircuitBreakerConfig(breakerFor: Option<(string, string) -> Option<BreakerId>>)

  /** cacheEntry, the JSON record stored in the cache. */
  datatype CacheEntry = CacheEntry(status: string, statusCode: int, header: Header, body: string)

  /** json.Marshal and json.Unmarshal of cacheEntry. */
  datatype EntryCodec = EntryCodec(encode: CacheEntry -> string, decode: string -> Option<CacheEntry>)

  ghost predicate RoundTrips(codec: EntryCodec) {
    forall e :: codec.decode(codec.encode(e)) == Some(e)
  }

  /** CacheConfig with its backend present (KeyFunc None: not yet defaulted). */
  datatype CacheConfig = CacheConfig(
    defaultTTL: int,
    methods: seq<string>,
    statusCodes: seq<int>,
    keyFunc: Option<Request -> string>,
    skipCacheHeader: string)

  datatype HooksConfig = HooksConfig(preRequest: bool, postRequest: bool, onError: bool)

  /** The decorators. */
  datatype Decorator =
    | RequestIDMiddleware
    | IPPropagationMiddleware
    | AppTokenMiddleware(appToken: string)
    | AuthMiddleware
    | RateLimitMiddleware(rateLimit: Option<RateLimitConfig>)
    | CircuitBreakerMiddleware(breakers: Option<CircuitBreakerConfig>)
    | CacheTransport(cacheConfig: CacheConfig, keyFor: Request -> string, codec: EntryCodec)
    | HooksMiddleware(hooks: Option<HooksConfig>)
    | MaxResponseSizeMiddleware(maxSize: int)

  /** A Middleware value: nil (what CacheMiddleware returns without a backend) or a decorator. */
  datatype Middleware = NilMiddleware | Layer(decorator: Decorator)

  /** http.DefaultTransport wrapped in decorators, outermost first. */
  datatype Transport = DefaultTransport | Wrapped(decorator: Decorator, next: Transport)

  /** defaultCacheKey: method, ':' and the URL. */
  function DefaultCacheKey(r: Request): (k: string)
    ensures k == r.httpMethod + ":" + r.url.text
    ensures |k| == |r.httpMethod| + 1 + |r.url.text| && k[|r.httpMethod|] == ':'
  {
    r.httpMethod + ":" + r.url.text
  }

  /** CacheMiddleware: nil without a config or backend; otherwise a missing KeyFunc becomes defaultCacheKey. */
  function CacheMiddleware(config: Option<CacheConfig>, hasBackend: bool, codec: EntryCodec): (m: Middleware)
    ensures m.NilMiddleware? <==> config.None? || !hasBackend
    ensures m.Layer? ==> m.decorator.CacheTransport? && m.decorator.cacheConfig == config.value && m.decorator.codec == codec
    ensures m.Layer? && config.value.keyFunc.Some? ==> m.decorator.keyFor == config.value.keyFunc.value
    ensures m.Layer? && config.value.keyFunc.None? ==> m.decorator.keyFor == DefaultCacheKey
  {
    if config.None? || !hasBackend then NilMiddleware
    else Layer(CacheTransport(config.value, if config.value.keyFunc.Some? then config.value.keyFunc.value else DefaultCacheKey, codec))
  }

  /** RequestIDMiddleware's header rule: a fresh id only where X-Request-ID is empty. */
  function WithRequestID(h: Header, id: string): (r: Header)
    ensures Get(h, "X-Request-ID") != "" ==> r == h
    ensures Get(h, "X-Request-ID") == "" ==> r == Set(h, "X-Request-ID", id) && Get(r, "X-Request-ID") == id
  {
    if Get(h, "X-Request-ID") == "" then Set(h, "X-Request-ID", id) else h
  }

  /** RemoteAddr cut at its last ':' (the whole address when it has none). */
  function PeerAddr(remoteAddr: string): (a: string)
    ensures a <= remoteAddr
    ensures ':' in remoteAddr ==> |a| < |remoteAddr| && remoteAddr[|a|] == ':' && forall j :: |a| < j < |remoteAddr| ==> remoteAddr[j] != ':'
    ensures ':' !in remoteAddr ==> a == remoteAddr
  {
    match LastIndexOf(remoteAddr, ':')
      case Some(i) => remoteAddr[..i]
      case None => remoteAddr
  }

  /**
   * IPPropagationMiddleware's X-Forwarded-For rule: the new value to set, or
   * None to leave the header as it is.
   */
  function ForwardedFor(fwdFor: string, addr: string): (r: Option<string>)
    ensures fwdFor == "" ==> r == Some(addr)
    ensures fwdFor != "" && !Contains(fwdFor, addr) ==> r == Some(fwdFor + ", " + addr)
    ensures fwdFor != "" && Contains(fwdFor, addr) ==> r.None?
    ensures r.Some? ==> Contains(r.value, addr)
  {
    if fwdFor != "" && !Contains(fwdFor, addr) then
      assert OccursAt(fwdFor + ", " + addr, addr, |fwdFor| + 2);
      Some(fwdFor + ", " + addr)
    else if fwdFor == "" then
      assert OccursAt(addr, addr, 0);
      Some(addr)
    else None
  }

  /** After the rule the header names the peer address (an empty one always counts as named). */
  lemma ForwardedForNamesPeer(fwdFor: string, addr: string)
    ensures var v := if ForwardedFor(fwdFor, addr).Some? then ForwardedFor(fwdFor, addr).value else fwdFor;
      Contains(v, addr)
  {
  }

  /** Propagating twice adds the address once. */
  lemma ForwardedForOnce(fwdFor: string, addr: string)
    requires ForwardedFor(fwdFor, addr).Some?
    ensures ForwardedFor(ForwardedFor(fwdFor, addr).value, addr).None? || addr == ""
  {
    var v := ForwardedFor(fwdFor, addr).value;
    if v == "" {
      assert fwdFor == "" && addr == "";
    }
  }

  function IPPropagated(h: Header, remoteAddr: string): Header {
    match ForwardedFor(Get(h, "X-Forwarded-For"), PeerAddr(remoteAddr))
      case Some(v) => Set(h, "X-Forwarded-For", v)
      case None => h
  }

  /** AuthMiddleware's rule: the incoming "Authorization" context string, when the settings require auth and it is non-empty. */
  function IncomingAuthorization(ctx: Ctx): (t: Option<string>)
    ensures t.Some? <==> (ctx.settings.Some? && ctx.settings.value.requireAuth && ctx.incomingAuth.Some?
      && ctx.incomingAuth.value.CtxString? && ctx.incomingAuth.value.s != "")
    ensures t.Some? ==> ctx.incomingAuth == Some(CtxString(t.value))
  {
    if ctx.settings.Some? && ctx.settings.value.requireAuth && ctx.incomingAuth.Some? && ctx.incomingAuth.value.CtxString? && ctx.incomingAuth.value.s != ""
    then Some(ctx.incomingAuth.value.s) else None
  }

  function Authorized(h: Header, ctx: Ctx): Header {
    match IncomingAuthorization(ctx)
      case Some(t) => Set(h, "Authorization", t)
      case None => h
  }

  /** AppTokenMiddleware's rule: X-Auth-App-Token only for a non-empty token from X_AUTH_APP_TOKEN. */
  function WithAppToken(h: Header, appToken: string): (r: Header)
    ensures appToken == "" ==> r == h
    ensures appToken != "" ==> Get(r, "X-Auth-App-Token") == appToken
  {
    if appToken != "" then Set(h, "X-Auth-App-Token", appToken) else h
  }

  /** The limiter RateLimitMiddleware consults for a request, if any. */
  function LimiterOf(cfg: Option<RateLimitConfig>, req: Request): Option<LimiterId> {
    if cfg.Some? && cfg.value.limiterFor.Some? then cfg.value.limiterFor.value(req.httpMethod, req.url.path) else None
  }

  /** The breaker CircuitBreakerMiddleware consults for a request, if any. */
  function BreakerOf(cfg: Option<CircuitBreakerConfig>, req: Request): Option<BreakerId> {
    if cfg.Some? && cfg.value.breakerFor.Some? then cfg.value.breakerFor.value(req.httpMethod, req.url.path) else None
  }

  /** What the breaker's operation reports: only the inner error; a response of any status is a success. */
  function OperationSucceeded(o: Outcome): (b: bool)
    ensures b <==> o.Resp?
  {
    match o
      case Resp(_) => true
      case Fail(_) => false
  }

  /** ReadAndRestoreBody as a value: the response afterwards, and the bytes read (None for nil) or the read error. */
  function ReadAndRestoreBody(resp: Option<Response>): (r: (Option<Response>, Result<Option<string>, string>))
    ensures resp.None? || resp.value.body.None? ==> r == (resp, Ok(None))
    ensures resp.Some? && resp.value.body.Some? && ReadAll(resp.value.body.value).1.Some? ==>
      r == (resp, Err(ReadAll(resp.value.body.value).1.value))
    ensures resp.Some? && resp.value.body.Some? && ReadAll(resp.value.body.value).1.None? ==>
      var data := ReadAll(resp.value.body.value).0;
      r == (Some(resp.value.(body := Some(Reader(data, None)))), Ok(Some(data)))
  {
    if resp.None? || resp.value.body.None? then (resp, Ok(None))
    else
      var (data, failure) := ReadAll(resp.value.body.value);
      if failure.Some? then (resp, Err(failure.value))
      else (Some(resp.value.(body := Some(Reader(data, None)))), Ok(Some(data)))
  }

  /** The restored body yields exactly the bytes ReadAndRestoreBody returned, and can be read again. */
  lemma RestoredBodyRereads(resp: Option<Response>)
    requires ReadAndRestoreBody(resp).1.Ok? && ReadAndRestoreBody(resp).1.value.Some?
    ensures var (r, data) := ReadAndRestoreBody(resp);
      r.Some? && r.value.body.Some? && ReadAll(r.value.body.value) == (data.value.value, None)
      && ReadAndRestoreBody(r) == (r, data)
  {
  }

  /** A body capped at n > 0 bytes. */
  function CapBody(body: Option<Body>, n: int): Option<Body> {
    match body
      case Some(b) => Some(Capped(b, n))
      case None => None
  }

  /**
   * The cache transport's scans of Methods and StatusCodes: true at the first
   * element equal to x, false when there is none.  The transport's definition
   * below states the result as sequence membership.
   */
  method Listed<T(==)>(xs: seq<T>, x: T) returns (found: bool)
    ensures found <==> x in xs
  {
    found := false;
    var i := 0;
    while i < |xs|
      invariant 0 <= i <= |xs|
      invariant x !in xs[..i]
    {
      if xs[i] == x {
        found := true;
        return;
      }
      assert xs[..i + 1] == xs[..i] + [xs[i]];
      i := i + 1;
    }
    assert xs[..i] == xs;
  }

  /** The response a decodable cache entry stands for. */
  function FromEntry(e: CacheEntry): (r: Response)
    ensures r.body == Some(Reader(e.body, None)) && r.contentLength == |e.body|
  {
    Response(e.status, e.statusCode, e.header, Some(Reader(e.body, None)), |e.body|)
  }

  /** The entry stored for a response: its headers without X-Request-Id, and its body. */
  function ToEntry(r: Response, body: string): CacheEntry {
    CacheEntry(r.status, r.statusCode, Del(r.header, "X-Request-Id"), body)
  }

  /** The cache's answer for a key: a decodable entry, or None on a miss of any kind. */
  function CachedEntry(items: Items, key: string, now: int, codec: EntryCodec): Option<CacheEntry> {
    match Lookup(items, key, now)
      case Ok(s) => codec.decode(s)
      case Err(_) => None
  }

  /** The TTL the cache transport stores with: the endpoint's CacheTTL when positive, else DefaultTTL. */
  function CacheTTLFor(cfg: CacheConfig, ctx: Ctx): (ttl: int)
    ensures ctx.settings.Some? && ctx.settings.value.cacheTTL > 0 ==> ttl == ctx.settings.value.cacheTTL
    ensures !(ctx.settings.Some? && ctx.settings.value.cacheTTL > 0) ==> ttl == cfg.defaultTTL
  {
    if ctx.settings.Some? && ctx.settings.value.cacheTTL > 0 then ctx.settings.value.cacheTTL else cfg.defaultTTL
  }

  /** A response stored by the cache transport reads back, while it lives, as the same status, headers and body. */
  lemma StoredEntryHits(items: Items, key: string, r: Response, body: string, ttl: int, now: int, later: int, codec: EntryCodec)
    requires RoundTrips(codec)
    requires now <= later && (ttl <= 0 || later <= now + ttl)
    ensures var stored := Stored(items, key, Str(codec.encode(ToEntry(r, body))), ttl, now);
      CachedEntry(stored, key, later, codec) == Some(ToEntry(r, body))
      && FromEntry(ToEntry(r, body)) == Response(r.status, r.statusCode, Del(r.header, "X-Request-Id"), Some(Reader(body, None)), |body|)
  {
  }

  datatype Step = Step(outcome: Outcome, header: Header, state: State)

  /** Running a transport on a request. */
  function RoundTrip(env: Env, t: Transport, req: Request, st: State): Step
    decreases t
  {
    match t
      case DefaultTransport =>
        Step(env.network(st.sent, req), req.header, st.(sent := st.sent + 1))
      case Wrapped(d, next) =>
        match d
          case RequestIDMiddleware =>
            if Get(req.header, "X-Request-ID") == "" then
              RoundTrip(env, next, req.(header := WithRequestID(req.header, env.uuid(st.uuidsTaken))), st.(uuidsTaken := st.uuidsTaken + 1))
            else RoundTrip(env, next, req, st)
          case IPPropagationMiddleware =>
            RoundTrip(env, next, req.(header := IPPropagated(req.header, req.remoteAddr)), st)
          case AppTokenMiddleware(appToken) =>
            RoundTrip(env, next, req.(header := WithAppToken(req.header, appToken)), st)
          case AuthMiddleware =>
            RoundTrip(env, next, req.(header := Authorized(req.header, req.ctx)), st)
          case RateLimitMiddleware(cfg) =>
            (match LimiterOf(cfg, req)
              case None => RoundTrip(env, next, req, st)
              case Some(l) =>
                var st1 := st.(waits := st.waits + 1);
                (match env.wait(l, st.waits)
                  case Some(e) => Step(Fail(e), req.header, st1)
                  case None => RoundTrip(env, next, req, st1)))
          case CircuitBreakerMiddleware(cfg) =>
            (match BreakerOf(cfg, req)
              case None => RoundTrip(env, next, req, st)
              case Some(b) =>
                var st1 := st.(executions := st.executions + 1);
                (match env.admit(b, st.executions)
                  case Some(e) => Step(Fail(e), req.header, st1)
                  case None =>
                    var s := RoundTrip(env, next, req, st1);
                    Step(s.outcome, s.header, s.state.(reports := s.state.reports + [BreakerReport(b, OperationSucceeded(s.outcome))]))))
          case CacheTransport(cfg, keyFor, codec) =>
            CacheRoundTrip(env, cfg, keyFor, codec, next, req, st)
          case HooksMiddleware(hooks) =>
            var pre := hooks.Some? && hooks.value.preRequest;
            var st1 := if pre then st.(hookLog := st.hookLog + [PreRequest(req)]) else st;
            var s := RoundTrip(env, next, req, st1);
            var after := req.(header := s.header);
            var st2 := if s.outcome.Fail? && hooks.Some? && hooks.value.onError then s.state.(hookLog := s.state.hookLog + [OnError(after, s.outcome.error)]) else s.state;
            var st3 := if s.outcome.Resp? && hooks.Some? && hooks.value.postRequest then st2.(hookLog := st2.hookLog + [PostRequest(after, s.outcome.response.statusCode)]) else st2;
            Step(s.outcome, s.header, st3)
          case MaxResponseSizeMiddleware(n) =>
            var s := RoundTrip(env, next, req, st);
            if s.outcome.Fail? || n <= 0 then s
            else Step(Resp(s.outcome.response.(body := CapBody(s.outcome.response.body, n))), s.header, s.state)
  }

  /** cacheTransport.RoundTrip. */
  function CacheRoundTrip(env: Env, cfg: CacheConfig, keyFor: Request -> string, codec: EntryCodec, next: Transport, req: Request, st: State): Step
    decreases Wrapped(CacheTransport(cfg, keyFor, codec), next), 0
  {
    var enableCache := req.ctx.settings.Some? && req.ctx.settings.value.enableCache;
    if !enableCache then RoundTrip(env, next, req, st)
    else if Get(req.header, cfg.skipCacheHeader) == "true" then
      RoundTrip(env, next, req.(header := Del(req.header, cfg.skipCacheHeader)), st)
    else if req.httpMethod !in cfg.methods then RoundTrip(env, next, req, st)
    else
      var key := keyFor(req);
      match CachedEntry(st.cache, key, env.now, codec)
        case Some(e) => Step(Resp(FromEntry(e)), req.header, st)
        case None =>
          var s := RoundTrip(env, next, req, st);
          match s.outcome
            case Fail(e) => s
            case Resp(r) =>
              match ReadAndRestoreBody(Some(r))
                case (_, Err(e)) => Step(Fail("error reading response body: " + e), s.header, s.state)
                case (restored, Ok(data)) =>
                  var body := if data.Some? then data.value else "";
                  if r.statusCode in cfg.statusCodes then
                    var stored := Stored(s.state.cache, key, Str(codec.encode(ToEntry(restored.value, body))), CacheTTLFor(cfg, req.ctx), env.now);
                    Step(Resp(restored.value), s.header, s.state.(cache := stored))
                  else Step(Resp(restored.value), s.header, s.state)
  }

  /** Decorators never sleep and never count attempts: those belong to Client.Do. */
  lemma {:induction false} RoundTripKeepsDoState(env: Env, t: Transport, req: Request, st: State)
    ensures RoundTrip(env, t, req, st).state.sleeps == st.sleeps
    ensures RoundTrip(env, t, req, st).state.attempts == st.attempts
    decreases t
  {
    match t
      case DefaultTransport =>
      case Wrapped(d, next) =>
        forall r, s ensures KeepsDoState(RoundTrip(env, next, r, s).state, s) {
          RoundTripKeepsDoState(env, next, r, s);
        }
        LayerKeepsDoState(env, d, next, req, st);
  }

  predicate KeepsDoState(after: State, before: State) {
    after.sleeps == before.sleeps && after.attempts == before.attempts
  }

  lemma LayerKeepsDoState(env: Env, d: Decorator, next: Transport, req: Request, st: State)
    requires forall r, s :: KeepsDoState(RoundTrip(env, next, r, s).state, s)
    ensures KeepsDoState(RoundTrip(env, Wrapped(d, next), req, st).state, st)
  {
    match d
      case CacheTransport(cfg, keyFor, codec) =>
        assert RoundTrip(env, Wrapped(d, next), req, st) == CacheRoundTrip(env, cfg, keyFor, codec, next, req, st);
        assert KeepsDoState(RoundTrip(env, next, req, st).state, st);
        assert KeepsDoState(RoundTrip(env, next, req.(header := Del(req.header, cfg.skipCacheHeader)), st).state, st);
      case _ =>
  }

  /** A failed Wait ends the request with its error before the inner transport runs. */
  lemma RateLimitShortCircuits(env: Env, cfg: Option<RateLimitConfig>, next: Transport, req: Request, st: State)
    requires LimiterOf(cfg, req).Some? && env.wait(LimiterOf(cfg, req).value, st.waits).Some?
    ensures RoundTrip(env, Wrapped(RateLimitMiddleware(cfg), next), req, st)
      == Step(Fail(env.wait(LimiterOf(cfg, req).value, st.waits).value), req.header, st.(waits := st.waits + 1))
  {
  }

  /** A breaker that runs the operation is told "success" for every response, 5xx included, and the outcome passes through. */
  lemma BreakerCountsResponsesAsSuccess(env: Env, cfg: Option<CircuitBreakerConfig>, next: Transport, req: Request, st: State)
    requires BreakerOf(cfg, req).Some? && env.admit(BreakerOf(cfg, req).value, st.executions).None?
    ensures var inner := RoundTrip(env, next, req, st.(executions := st.executions + 1));
      var s := RoundTrip(env, Wrapped(CircuitBreakerMiddleware(cfg), next), req, st);
      s.outcome == inner.outcome
      && s.state.reports == inner.state.reports + [BreakerReport(BreakerOf(cfg, req).value, inner.outcome.Resp?)]
  {
  }

  /** A rejecting breaker never runs the inner transport: no response, the breaker's error, nothing reported. */
  lemma BreakerRejects(env: Env, cfg: Option<CircuitBreakerConfig>, next: Transport, req: Request, st: State)
    requires BreakerOf(cfg, req).Some? && env.admit(BreakerOf(cfg, req).value, st.executions).Some?
    ensures RoundTrip(env, Wrapped(CircuitBreakerMiddleware(cfg), next), req, st)
      == Step(Fail(env.admit(BreakerOf(cfg, req).value, st.executions).value), req.header, st.(executions := st.executions + 1))
  {
  }

  /** On a hit the inner transport is not called and the cache is left alone. */
  lemma CacheHit(env: Env, cfg: CacheConfig, keyFor: Request -> string, codec: EntryCodec, next: Transport, req: Request, st: State)
    requires req.ctx.settings.Some? && req.ctx.settings.value.enableCache
    requires Get(req.header, cfg.skipCacheHeader) != "true" && req.httpMethod in cfg.methods
    requires CachedEntry(st.cache, keyFor(req), env.now, codec).Some?
    ensures RoundTrip(env, Wrapped(CacheTransport(cfg, keyFor, codec), next), req, st)
      == Step(Resp(FromEntry(CachedEntry(st.cache, keyFor(req), env.now, codec).value)), req.header, st)
  {
  }

  /** Every bypass runs the inner transport on the request as it is, except that a skip header is removed first. */
  lemma CacheBypass(env: Env, cfg: CacheConfig, keyFor: Request -> string, codec: EntryCodec, next: Transport, req: Request, st: State)
    ensures !(req.ctx.settings.Some? && req.ctx.settings.value.enableCache) ==>
      RoundTrip(env, Wrapped(CacheTransport(cfg, keyFor, codec), next), req, st) == RoundTrip(env, next, req, st)
    ensures req.ctx.settings.Some? && req.ctx.settings.value.enableCache && Get(req.header, cfg.skipCacheHeader) == "true" ==>
      RoundTrip(env, Wrapped(CacheTransport(cfg, keyFor, codec), next), req, st)
        == RoundTrip(env, next, req.(header := Del(req.header, cfg.skipCacheHeader)), st)
    ensures req.ctx.settings.Some? && req.ctx.settings.value.enableCache && Get(req.header, cfg.skipCacheHeader) != "true" && req.httpMethod !in cfg.methods ==>
      RoundTrip(env, Wrapped(CacheTransport(cfg, keyFor, codec), next), req, st) == RoundTrip(env, next, req, st)
  {
  }

  /** A miss stores the response, when its status is listed, under the request's key; other statuses leave the cache alone. */
  lemma CacheMissStores(env: Env, cfg: CacheConfig, keyFor: Request -> string, codec: EntryCodec, next: Transport, req: Request, st: State)
    requires req.ctx.settings.Some? && req.ctx.settings.value.enableCache
    requires Get(req.header, cfg.skipCacheHeader) != "true" && req.httpMethod in cfg.methods
    requires CachedEntry(st.cache, keyFor(req), env.now, codec).None?
    requires RoundTrip(env, next, req, st).outcome.Resp?
    requires ReadAndRestoreBody(Some(RoundTrip(env, next, req, st).outcome.response)).1.Ok?
    ensures var inner := RoundTrip(env, next, req, st);
      var r := inner.outcome.response;
      var (restored, data) := ReadAndRestoreBody(Some(r));
      var body := if data.value.Some? then data.value.value else "";
      var s := RoundTrip(env, Wrapped(CacheTransport(cfg, keyFor, codec), next), req, st);
      s.outcome == Resp(restored.value)
      && (r.statusCode in cfg.statusCodes ==>
            s.state.cache == Stored(inner.state.cache, keyFor(req), Str(codec.encode(ToEntry(restored.value, body))), CacheTTLFor(cfg, req.ctx), env.now))
      && (r.statusCode !in cfg.statusCodes ==> s.state == inner.state)
  {
  }

  /** MaxResponseSize leaves errors and non-positive limits alone, and otherwise no read returns more than maxSize bytes. */
  lemma MaxResponseSizeCaps(env: Env, n: int, next: Transport, req: Request, st: State)
    ensures var inner := RoundTrip(env, next, req, st);
      var s := RoundTrip(env, Wrapped(MaxResponseSizeMiddleware(n), next), req, st);
      (inner.outcome.Fail? || n <= 0 ==> s == inner)
      && (inner.outcome.Resp? && n > 0 && inner.outcome.response.body.Some? ==>
            s.outcome.Resp? && s.outcome.response.body.Some? && |ReadAll(s.outcome.response.body.value).0| <= n
            && s.outcome.response.(body := inner.outcome.response.body) == inner.outcome.response)
  {
  }

  /** HooksMiddleware passes the outcome through; OnError is called exactly for errors and PostRequest exactly for responses. */
  lemma HooksObserve(env: Env, hooks: HooksConfig, next: Transport, req: Request, st: State)
    ensures var st1 := if hooks.preRequest then st.(hookLog := st.hookLog + [PreRequest(req)]) else st;
      var inner := RoundTrip(env, next, req, st1);
      var s := RoundTrip(env, Wrapped(HooksMiddleware(Some(hooks)), next), req, st);
      var after := req.(header := inner.header);
      s.outcome == inner.outcome && s.header == inner.header
      && s.state.hookLog == inner.state.hookLog
           + (if inner.outcome.Fail? && hooks.onError then [OnError(after, inner.outcome.error)] else [])
           + (if inner.outcome.Resp? && hooks.postRequest then [PostRequest(after, inner.outcome.response.statusCode)] else [])
  {
  }

  /** The request-id rule: an id already present reaches the inner transport unchanged, else a fresh one is taken. */
  lemma RequestIDRule(env: Env, next: Transport, req: Request, st: State)
    ensures Get(req.header, "X-Request-ID") != "" ==>
      RoundTrip(env, Wrapped(RequestIDMiddleware, next), req, st) == RoundTrip(env, next, req, st)
    ensures Get(req.header, "X-Request-ID") == "" ==>
      RoundTrip(env, Wrapped(RequestIDMiddleware, next), req, st)
        == RoundTrip(env, next, req.(header := Set(req.header, "X-Request-ID", env.uuid(st.uuidsTaken))), st.(uuidsTaken := st.uuidsTaken + 1))
  {
  }

  /** Middlewares [m0, ..., mk] over the base transport: m0(m1(...mk(base))). */
  function Compose(ds: seq<Decorator>, base: Transport): (t: Transport)
    decreases |ds|
  {
    if ds == [] then base else Wrapped(ds[0], Compose(ds[1..], base))
  }

  /** The decorators of a transport, outermost first. */
  function Layers(t: Transport): seq<Decorator> {
    match t
      case DefaultTransport => []
      case Wrapped(d, next) => [d] + Layers(next)
  }

  /** Composing and then listing the layers gives back the registration order: the first registered runs outermost. */
  lemma {:induction false} LayersOfCompose(ds: seq<Decorator>)
    ensures Layers(Compose(ds, DefaultTransport)) == ds
    decreases |ds|
  {
    if ds != [] {
      LayersOfCompose(ds[1..]);
    }
  }

  /** Registering a then b is b wrapped inside a. */
  lemma {:induction false} ComposeAppend(a: seq<Decorator>, b: seq<Decorator>, base: Transport)
    ensures Compose(a + b, base) == Compose(a, Compose(b, base))
    decreases |a|
  {
    if a != [] {
      assert (a + b)[0] == a[0] && (a + b)[1..] == a[1..] + b;
      ComposeAppend(a[1..], b, base);
      calc {
        Compose(a + b, base);
        Wrapped(a[0], Compose(a[1..] + b, base));
        Wrapped(a[0], Compose(a[1..], Compose(b, base)));
        Compose(a, Compose(b, base));
      }
    } else {
      assert a + b == b;
    }
  }
}
