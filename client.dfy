/**
 * pkg/client/client.go: the client options, NewClient's composition of the
 * middlewares, Do (settings resolution, header merging, the retry loop, the
 * buffered body and the error classification) and the verb helpers.
 */
module HttpClient {
  import opened Wrappers
  import opened Text
  import opened Durations
  import opened Http
  import opened ClientErrors
  import opened ClientConfig
  import opened ClientMiddlewares

  /** EndpointConfig: settings for a method and path, or nil. */
  type EndpointConfig = (string, string) -> EndpointSettings?

  /** The client-level HooksConfig; which of its callbacks are set. Do never calls them. */
  datatype ClientHooks = ClientHooks(preRequest: bool, postRequest: bool, onError: bool)

  /** The functional options of NewClient. */
  datatype ClientOption =
    | WithBaseURL(url: string)
    | WithEndpointConfig(endpoints: Option<EndpointConfig>)
    | WithDefaultSettings(settings: EndpointSettings?)
    | WithMiddleware(middleware: Middleware)
    | WithHooks(hooks: Option<ClientHooks>)

  /** The fields of options, as a value. */
  datatype OptionsValue = OptionsValue(
    baseURL: string,
    endpointConfig: Option<EndpointConfig>,
    defaultSettings: EndpointSettings?,
    middlewares: seq<Middleware>,
    hooks: Option<ClientHooks>)

  /** What one option does to the options. */
  function ApplyOption(v: OptionsValue, opt: ClientOption): OptionsValue {
    match opt
      case WithBaseURL(url) => v.(baseURL := TrimRightChar(url, '/'))
      case WithEndpointConfig(ec) => v.(endpointConfig := ec)
      case WithDefaultSettings(s) => v.(defaultSettings := s)
      case WithMiddleware(mw) => v.(middlewares := v.middlewares + [mw])
      case WithHooks(h) => v.(hooks := h)
  }

  /** The options in order, each applied to what the earlier ones left. */
  function Configure(v: OptionsValue, opts: seq<ClientOption>): OptionsValue
    decreases |opts|
  {
    if opts == [] then v else Configure(ApplyOption(v, opts[0]), opts[1..])
  }

  /** The middlewares the options register, in order. */
  function Registered(opts: seq<ClientOption>): seq<Middleware>
    decreases |opts|
  {
    if opts == [] then []
    else (if opts[0].WithMiddleware? then [opts[0].middleware] else []) + Registered(opts[1..])
  }

  /** Applying a then b is applying a + b. */
  lemma {:induction false} ConfigureAppend(v: OptionsValue, a: seq<ClientOption>, b: seq<ClientOption>)
    ensures Configure(v, a + b) == Configure(Configure(v, a), b)
    decreases |a|
  {
    if a == [] {
      assert a + b == b;
    } else {
      assert (a + b)[0] == a[0] && (a + b)[1..] == a[1..] + b;
      ConfigureAppend(ApplyOption(v, a[0]), a[1..], b);
    }
  }

  /** WithMiddleware appends: the registered middlewares follow the earlier ones in registration order. */
  lemma {:induction false} ConfigureMiddlewares(v: OptionsValue, opts: seq<ClientOption>)
    ensures Configure(v, opts).middlewares == v.middlewares + Registered(opts)
    decreases |opts|
  {
    if opts != [] {
      ConfigureMiddlewares(ApplyOption(v, opts[0]), opts[1..]);
      assert ApplyOption(v, opts[0]).middlewares == v.middlewares + (if opts[0].WithMiddleware? then [opts[0].middleware] else []);
    }
  }

  /** Whatever the options, the base URL ends without '/' unless no option set it and the initial one did. */
  lemma {:induction false} ConfigureBaseURL(v: OptionsValue, opts: seq<ClientOption>)
    ensures var u := Configure(v, opts).baseURL;
      u == v.baseURL || u == [] || u[|u| - 1] != '/'
    decreases |opts|
  {
    if opts != [] {
      ConfigureBaseURL(ApplyOption(v, opts[0]), opts[1..]);
    }
  }

  /** The last WithDefaultSettings wins, whatever came before it. */
  lemma LastDefaultSettingsWin(v: OptionsValue, opts: seq<ClientOption>, s: EndpointSettings?, rest: seq<ClientOption>)
    requires forall i :: 0 <= i < |rest| ==> !rest[i].WithDefaultSettings?
    ensures Configure(v, opts + [WithDefaultSettings(s)] + rest).defaultSettings == s
  {
    ConfigureAppend(v, opts + [WithDefaultSettings(s)], rest);
    ConfigureAppend(v, opts, [WithDefaultSettings(s)]);
    KeepsDefaultSettings(Configure(v, opts + [WithDefaultSettings(s)]), rest);
  }

  lemma {:induction false} KeepsDefaultSettings(v: OptionsValue, opts: seq<ClientOption>)
    requires forall i :: 0 <= i < |opts| ==> !opts[i].WithDefaultSettings?
    ensures Configure(v, opts).defaultSettings == v.defaultSettings
    decreases |opts|
  {
    if opts != [] {
      assert !opts[0].WithDefaultSettings?;
      KeepsDefaultSettings(ApplyOption(v, opts[0]), opts[1..]);
    }
  }

  class Options {
    var baseURL: string
    var endpointConfig: Option<EndpointConfig>
    var defaultSettings: EndpointSettings?
    var middlewares: seq<Middleware>
    var hooks: Option<ClientHooks>

    /** The options NewClient starts from: 30s, 3 retries, no headers, empty hooks. */
    constructor ()
      ensures baseURL == "" && endpointConfig.None? && middlewares == [] && hooks == Some(ClientHooks(false, false, false))
      ensures defaultSettings != null && fresh(defaultSettings)
      ensures defaultSettings.BasicFields() == Basics(30 * Second, 3, Some(map[]))
      ensures defaultSettings.shouldRetry.None? && defaultSettings.backoff.None? && !defaultSettings.requireAuth
      ensures defaultSettings.breaker == null && defaultSettings.authTokenFn.None? && !defaultSettings.enableCache
      ensures defaultSettings.cacheTTL == 0 && defaultSettings.fallback.None?
    {
      var d := new EndpointSettings();
      d.timeout := 30 * Second;
      d.maxRetries := 3;
      d.headers := Some(map[]);
      baseURL := "";
      endpointConfig := None;
      defaultSettings := d;
      middlewares := [];
      hooks := Some(ClientHooks(false, false, false));
    }

    function Value(): OptionsValue
      reads this
    {
      OptionsValue(baseURL, endpointConfig, defaultSettings, middlewares, hooks)
    }

    /** Running one option on the options. */
    method Apply(opt: ClientOption)
      modifies this
      ensures Value() == ApplyOption(old(Value()), opt)
    {
      match opt
        case WithBaseURL(url) => baseURL := TrimRightChar(url, '/');
        case WithEndpointConfig(ec) => endpointConfig := ec;
        case WithDefaultSettings(s) => defaultSettings := s;
        case WithMiddleware(mw) => middlewares := middlewares + [mw];
        case WithHooks(h) => hooks := h;
    }
  }

  class Client {
    const transport: Transport
    /** http.Client.Timeout: the default settings' Timeout when the client was built. */
    const timeout: int
    const options: Options

    constructor (transport: Transport, timeout: int, options: Options)
      ensures this.transport == transport && this.timeout == timeout && this.options == options
    {
      this.transport := transport;
      this.timeout := timeout;
      this.options := options;
    }
  }

  predicate AllLayers(ms: seq<Middleware>) {
    forall i :: 0 <= i < |ms| ==> ms[i].Layer?
  }

  function DecoratorsOf(ms: seq<Middleware>): (ds: seq<Decorator>)
    requires AllLayers(ms)
    ensures |ds| == |ms| && forall i :: 0 <= i < |ms| ==> ds[i] == ms[i].decorator
  {
    seq(|ms|, i requires 0 <= i < |ms| => ms[i].decorator)
  }

  /**
   * NewClient: the options applied in order, then the middlewares wrapped
   * around the default transport from the last to the first.  A nil
   * middleware, or nil default settings, make it panic (None).
   */
  method NewClient(opts: seq<ClientOption>) returns (r: Option<Client>, ghost o: Options, ghost initial: EndpointSettings)
    ensures fresh(o) && fresh(initial)
    ensures initial.BasicFields() == Basics(30 * Second, 3, Some(map[]))
    ensures o.Value() == Configure(OptionsValue("", None, initial, [], Some(ClientHooks(false, false, false))), opts)
    ensures o.middlewares == Registered(opts)
    ensures r.Some? <==> AllLayers(o.middlewares) && o.defaultSettings != null
    ensures r.Some? ==> fresh(r.value) && r.value.options == o && r.value.timeout == o.defaultSettings.timeout
    ensures r.Some? ==> r.value.transport == Compose(DecoratorsOf(o.middlewares), DefaultTransport)
  {
    var options := new Options();
    o := options;
    initial := options.defaultSettings;
    ghost var start := options.Value();
    var i := 0;
    while i < |opts|
      invariant 0 <= i <= |opts|
      invariant options.Value() == Configure(start, opts[..i])
      invariant initial.BasicFields() == Basics(30 * Second, 3, Some(map[]))
      modifies options
    {
      options.Apply(opts[i]);
      ConfigureAppend(start, opts[..i], [opts[i]]);
      assert opts[..i + 1] == opts[..i] + [opts[i]];
      i := i + 1;
    }
    assert opts[..i] == opts;
    ConfigureMiddlewares(start, opts);
    var mws := options.middlewares;
    var transport := DefaultTransport;
    var j := |mws|;
    while j > 0
      invariant 0 <= j <= |mws|
      invariant AllLayers(mws[j..])
      invariant transport == Compose(DecoratorsOf(mws[j..]), DefaultTransport)
    {
      j := j - 1;
      if mws[j].NilMiddleware? {
        r := None;
        return;
      }
      assert DecoratorsOf(mws[j..])[1..] == DecoratorsOf(mws[j + 1..]);
      transport := Wrapped(mws[j].decorator, transport);
    }
    assert mws[j..] == mws;
    if options.defaultSettings == null {
      r := None;
      return;
    }
    var c := new Client(transport, options.defaultSettings.timeout, options);
    r := Some(c);
  }

  /** The first registered middleware is the outermost layer, and the layers keep the registration order. */
  lemma FirstRegisteredOutermost(ms: seq<Middleware>)
    requires AllLayers(ms) && |ms| > 0
    ensures Compose(DecoratorsOf(ms), DefaultTransport).decorator == ms[0].decorator
    ensures Layers(Compose(DecoratorsOf(ms), DefaultTransport)) == DecoratorsOf(ms)
  {
    LayersOfCompose(DecoratorsOf(ms));
  }

  /** A Go *http.Request: the header map is shared with whoever holds the request and is updated in place. */
  class OutgoingRequest {
    const httpMethod: string
    const url: URL
    const remoteAddr: string
    var header: Header

    constructor (httpMethod: string, url: URL, remoteAddr: string, header: Header)
      ensures this.httpMethod == httpMethod && this.url == url && this.remoteAddr == remoteAddr && this.header == header
    {
      this.httpMethod := httpMethod;
      this.url := url;
      this.remoteAddr := remoteAddr;
      this.header := header;
    }
  }

  /** What Do's caller context carries: the incoming Authorization value and a deadline, if any. */
  datatype ParentCtx = ParentCtx(incomingAuth: Option<CtxValue>, deadline: Option<int>)

  /** The settings Do uses: the endpoint function's when it gives non-nil ones, else the client defaults. */
  function Chosen(o: Options, httpMethod: string, path: string): (s: EndpointSettings)
    reads o
    requires o.defaultSettings != null
    ensures o.endpointConfig.Some? && o.endpointConfig.value(httpMethod, path) != null ==> s == o.endpointConfig.value(httpMethod, path)
    ensures (o.endpointConfig.None? || o.endpointConfig.value(httpMethod, path) == null) ==> s == o.defaultSettings
  {
    var hit := if o.endpointConfig.Some? then o.endpointConfig.value(httpMethod, path) else null;
    if hit != null then hit else o.defaultSettings
  }

  /** context.WithTimeout: the earlier of the parent's deadline and now + timeout. */
  function Deadline(parent: Option<int>, limit: int): (d: int)
    ensures d <= limit && (parent.Some? ==> d <= parent.value)
    ensures d == limit || (parent.Some? && d == parent.value)
  {
    if parent.Some? && parent.value < limit then parent.value else limit
  }

  function Raw(h: Header, key: string): string {
    if key in h && |h[key]| > 0 then h[key][0] else ""
  }

  /** The entry under `key` is the same in both headers. */
  predicate SameEntry(a: Header, b: Header, key: string) {
    (key in a <==> key in b) && (key in a ==> a[key] == b[key])
  }

  function CanonicalNames(m: map<string, string>): set<string> {
    set k | k in m :: CanonicalKey(k)
  }

  /** The entry under `key` is a single value that m gives under some spelling of `key`. */
  predicate SetFrom(r: Header, m: map<string, string>, key: string) {
    key in r && exists k :: k in m && CanonicalKey(k) == key && r[key] == [m[k]]
  }

  /**
   * r is h after Set(k, m[k]) for every key of m, in some order, each only
   * where Get(k) was still empty at that moment: names h already had a value
   * for keep it, the others get a value of m, and nothing else changes.
   */
  ghost predicate FilledFrom(h: Header, m: map<string, string>, r: Header) {
    (forall key :: key !in CanonicalNames(m) ==> SameEntry(h, r, key))
    && (forall key :: key in CanonicalNames(m) && Raw(h, key) != "" ==> SameEntry(h, r, key))
    && (forall key :: key in CanonicalNames(m) && Raw(h, key) == "" ==> SetFrom(r, m, key))
  }

  /** r is h after Set(k, m[k]) for every key of m, in some order. */
  ghost predicate OverwrittenBy(h: Header, m: map<string, string>, r: Header) {
    (forall key :: key !in CanonicalNames(m) ==> SameEntry(h, r, key))
    && (forall key :: key in CanonicalNames(m) ==> SetFrom(r, m, key))
  }

  /** Do's first loop: default headers only where the request has no value (map order is arbitrary). */
  method FillMissing(h: Header, defaults: map<string, string>) returns (r: Header)
    ensures FilledFrom(h, defaults, r)
  {
    r := h;
    var todo := defaults.Keys;
    while todo != {}
      invariant todo <= defaults.Keys
      invariant FilledFrom(h, defaults - todo, r)
      decreases |todo|
    {
      var k :| k in todo;
      var done := defaults - todo;
      assert defaults - (todo - {k}) == done[k := defaults[k]];
      var r0 := r;
      if Get(r, k) == "" {
        r := Set(r, k, defaults[k]);
      }
      FillStep(h, done, k, defaults[k], r0, r);
      todo := todo - {k};
    }
    assert defaults - todo == defaults;
  }

  lemma CanonicalNamesUpdate(m: map<string, string>, k: string, v: string)
    ensures CanonicalNames(m[k := v]) == CanonicalNames(m) + {CanonicalKey(k)}
  {
  }

  lemma FillStep(h: Header, done: map<string, string>, k: string, v: string, r0: Header, r: Header)
    requires FilledFrom(h, done, r0) && k !in done
    requires r == (if Get(r0, k) == "" then Set(r0, k, v) else r0)
    ensures FilledFrom(h, done[k := v], r)
  {
    var d' := done[k := v];
    var K := CanonicalKey(k);
    CanonicalNamesUpdate(done, k, v);
    forall key | key !in CanonicalNames(d') ensures SameEntry(h, r, key) {
      assert key != K && key !in CanonicalNames(done);
    }
    forall key | key in CanonicalNames(d') && Raw(h, key) != "" ensures SameEntry(h, r, key) {
      assert SameEntry(h, r0, key);
    }
    forall key | key in CanonicalNames(d') && Raw(h, key) == "" ensures SetFrom(r, d', key) {
      if key == K && Get(r0, k) == "" {
        assert r[key] == [d'[k]];
      } else {
        assert key in CanonicalNames(done);
        var k' :| k' in done && CanonicalKey(k') == key && r0[key] == [done[k']];
        assert k' != k && d'[k'] == done[k'] && r[key] == r0[key];
      }
    }
  }

  /** Do's second loop: every endpoint header is set (map order is arbitrary). */
  method SetAll(h: Header, m: map<string, string>) returns (r: Header)
    ensures OverwrittenBy(h, m, r)
  {
    r := h;
    var todo := m.Keys;
    while todo != {}
      invariant todo <= m.Keys
      invariant OverwrittenBy(h, m - todo, r)
      decreases |todo|
    {
      var k :| k in todo;
      var done := m - todo;
      assert m - (todo - {k}) == done[k := m[k]];
      var r0 := r;
      r := Set(r, k, m[k]);
      SetStep(h, done, k, m[k], r0, r);
      todo := todo - {k};
    }
    assert m - todo == m;
  }

  lemma SetStep(h: Header, done: map<string, string>, k: string, v: string, r0: Header, r: Header)
    requires OverwrittenBy(h, done, r0) && k !in done
    requires r == Set(r0, k, v)
    ensures OverwrittenBy(h, done[k := v], r)
  {
    var d' := done[k := v];
    var K := CanonicalKey(k);
    CanonicalNamesUpdate(done, k, v);
    forall key | key !in CanonicalNames(d') ensures SameEntry(h, r, key) {
      assert key != K && key !in CanonicalNames(done);
    }
    forall key | key in CanonicalNames(d') ensures SetFrom(r, d', key) {
      if key == K {
        assert r[key] == [d'[k]];
      } else {
        assert key in CanonicalNames(done);
        var k' :| k' in done && CanonicalKey(k') == key && r0[key] == [done[k']];
        assert k' != k && d'[k'] == done[k'] && r[key] == r0[key];
      }
    }
  }

  /** When no two names in m are spellings of one header, every one of them reads back its own value. */
  lemma OverwrittenUnique(h: Header, m: map<string, string>, r: Header, k: string)
    requires OverwrittenBy(h, m, r)
    requires forall a, b :: a in m && b in m && a != b ==> CanonicalKey(a) != CanonicalKey(b)
    requires k in m
    ensures Get(r, k) == m[k]
  {
    assert CanonicalKey(k) in CanonicalNames(m);
    var k' :| k' in m && CanonicalKey(k') == CanonicalKey(k) && r[CanonicalKey(k)] == [m[k']];
  }

  /** Endpoint headers win over defaults, and defaults never replace a value the request already had. */
  lemma MergePrecedence(h: Header, defaults: map<string, string>, endpoint: map<string, string>, filled: Header, merged: Header, key: string)
    requires FilledFrom(h, defaults, filled) && OverwrittenBy(filled, endpoint, merged)
    ensures key in CanonicalNames(endpoint) ==> SetFrom(merged, endpoint, key)
    ensures key !in CanonicalNames(endpoint) && Raw(h, key) != "" ==> SameEntry(h, merged, key)
    ensures key !in CanonicalNames(endpoint) && key !in CanonicalNames(defaults) ==> SameEntry(h, merged, key)
  {
    if key !in CanonicalNames(endpoint) {
      assert SameEntry(filled, merged, key);
    }
  }

  /** The token AuthTokenFn supplies for the request, when it succeeds with a non-empty one. */
  function BearerToken(fn: Option<AuthTokenFn>, info: RequestInfo): (t: Option<string>)
    ensures t.Some? <==> (fn.Some? && fn.value(info).Ok? && fn.value(info).value != "")
    ensures t.Some? ==> t.value == fn.value(info).value
  {
    if fn.Some? && fn.value(info).Ok? && fn.value(info).value != "" then Some(fn.value(info).value) else None
  }

  function WithBearer(h: Header, token: Option<string>): (r: Header)
    ensures token.Some? ==> Get(r, "Authorization") == "Bearer " + token.value
    ensures token.None? ==> r == h
  {
    match token
      case Some(t) => Set(h, "Authorization", "Bearer " + t)
      case None => h
  }

  /** The default retry predicate: an error or a 5xx response. */
  function DefaultShouldRetry(resp: Option<Response>, err: Option<string>): bool {
    err.Some? || (resp.Some? && resp.value.statusCode >= 500)
  }

  /** The default backoff: 200ms whatever the attempt. */
  function DefaultBackoff(attempt: int): int {
    200 * Millisecond
  }

  function ShouldRetryOf(s: Option<RetryPredicate>): RetryPredicate {
    if s.Some? then s.value else DefaultShouldRetry
  }

  function BackoffOf(b: Option<Backoff>): Backoff {
    if b.Some? then b.value else DefaultBackoff
  }

  lemma DefaultPolicies(resp: Option<Response>, err: Option<string>, attempt: int)
    ensures ShouldRetryOf(None)(resp, err) <==> (err.Some? || (resp.Some? && resp.value.statusCode >= 500))
    ensures BackoffOf(None)(attempt) == 200 * Millisecond
  {
  }

  function ResponseOf(o: Option<Outcome>): Option<Response> {
    if o.Some? && o.value.Resp? then Some(o.value.response) else None
  }

  function ErrorOf(o: Option<Outcome>): Option<string> {
    if o.Some? && o.value.Fail? then Some(o.value.error) else None
  }

  /** One attempt: the transport run on a request from a state. */
  type AttemptFn = (Request, State) -> Step

  /** The attempts Do makes: its client's transport. */
  function Sender(env: Env, t: Transport): AttemptFn {
    (r: Request, s: State) => RoundTrip(env, t, r, s)
  }

  /** The retry loop's result: the last outcome (None when no attempt ran), the final retry index, the request header, the state. */
  datatype Attempts = Attempts(last: Option<Outcome>, retries: int, header: Header, state: State)

  /**
   * The retry loop from attempt `retry` on: each attempt runs the transport;
   * an outcome the predicate rejects ends the loop; otherwise the loop sleeps
   * backoff(retry) unless that was the last allowed attempt, and goes on.
   */
  function Retry(send: AttemptFn, req: Request, st: State, retry: int, maxRetries: int,
                 shouldRetry: RetryPredicate, backoff: Backoff, last: Option<Outcome>): Attempts
    decreases if retry > maxRetries then 0 else maxRetries - retry + 1
  {
    if retry > maxRetries then Attempts(last, retry, req.header, st)
    else
      var s := send(req, st.(attempts := st.attempts + 1));
      if !shouldRetry(ResponseOf(Some(s.outcome)), ErrorOf(Some(s.outcome))) then
        Attempts(Some(s.outcome), retry, s.header, s.state)
      else
        var slept := if retry < maxRetries then s.state.(sleeps := s.state.sleeps + [backoff(retry)]) else s.state;
        Retry(send, req.(header := s.header), slept, retry + 1, maxRetries, shouldRetry, backoff, Some(s.outcome))
  }

  /** The pauses backoff(from), ..., backoff(to - 1). */
  function Backoffs(backoff: Backoff, from: int, to: int): (s: seq<int>)
    ensures |s| == if to > from then to - from else 0
    ensures forall i :: 0 <= i < |s| ==> s[i] == backoff(from + i)
  {
    if to > from then seq(to - from, i => backoff(from + i)) else []
  }

  /** The retry loop stops at the first rejected outcome, or after maxRetries + 1 attempts. */
  lemma {:induction false} RetryStops(send: AttemptFn, req: Request, st: State, retry: int, maxRetries: int,
                                      shouldRetry: RetryPredicate, backoff: Backoff, last: Option<Outcome>)
    ensures var a := Retry(send, req, st, retry, maxRetries, shouldRetry, backoff, last);
      retry <= a.retries
      && (retry <= maxRetries ==> a.retries <= maxRetries + 1 && a.last.Some?)
      && (retry > maxRetries ==> a.retries == retry && a.last == last && a.state == st)
      && (a.retries <= maxRetries ==> !shouldRetry(ResponseOf(a.last), ErrorOf(a.last)))
    decreases if retry > maxRetries then 0 else maxRetries - retry + 1
  {
    if retry <= maxRetries {
      var s := send(req, st.(attempts := st.attempts + 1));
      if shouldRetry(ResponseOf(Some(s.outcome)), ErrorOf(Some(s.outcome))) {
        var slept := if retry < maxRetries then s.state.(sleeps := s.state.sleeps + [backoff(retry)]) else s.state;
        RetryStops(send, req.(header := s.header), slept, retry + 1, maxRetries, shouldRetry, backoff, Some(s.outcome));
      }
    }
  }

  /** With attempts that do not count attempts themselves: one attempt per index the loop reaches. */
  lemma {:induction false} RetryAttempts(send: AttemptFn, req: Request, st: State, retry: int, maxRetries: int,
                                         shouldRetry: RetryPredicate, backoff: Backoff, last: Option<Outcome>)
    requires forall r, s :: KeepsDoState(send(r, s).state, s)
    ensures var a := Retry(send, req, st, retry, maxRetries, shouldRetry, backoff, last);
      a.state.attempts == st.attempts + (if a.retries <= maxRetries then a.retries - retry + 1 else a.retries - retry)
    decreases if retry > maxRetries then 0 else maxRetries - retry + 1
  {
    if retry <= maxRetries {
      var st1 := st.(attempts := st.attempts + 1);
      var s := send(req, st1);
      assert KeepsDoState(s.state, st1);
      if shouldRetry(ResponseOf(Some(s.outcome)), ErrorOf(Some(s.outcome))) {
        var slept := if retry < maxRetries then s.state.(sleeps := s.state.sleeps + [backoff(retry)]) else s.state;
        RetryAttempts(send, req.(header := s.header), slept, retry + 1, maxRetries, shouldRetry, backoff, Some(s.outcome));
      }
    }
  }

  /**
   * With attempts that do not sleep themselves: a pause backoff(i) after every
   * attempt i that is retried and is not the last allowed one, and no other.
   */
  lemma {:induction false} RetrySleeps(send: AttemptFn, req: Request, st: State, retry: int, maxRetries: int,
                                       shouldRetry: RetryPredicate, backoff: Backoff, last: Option<Outcome>)
    requires forall r, s :: KeepsDoState(send(r, s).state, s)
    ensures var a := Retry(send, req, st, retry, maxRetries, shouldRetry, backoff, last);
      a.state.sleeps == st.sleeps + Backoffs(backoff, retry, if a.retries <= maxRetries then a.retries else maxRetries)
    decreases if retry > maxRetries then 0 else maxRetries - retry + 1
  {
    if retry <= maxRetries {
      var st1 := st.(attempts := st.attempts + 1);
      var s := send(req, st1);
      assert KeepsDoState(s.state, st1);
      if shouldRetry(ResponseOf(Some(s.outcome)), ErrorOf(Some(s.outcome))) {
        var slept := if retry < maxRetries then s.state.(sleeps := s.state.sleeps + [backoff(retry)]) else s.state;
        var a := Retry(send, req.(header := s.header), slept, retry + 1, maxRetries, shouldRetry, backoff, Some(s.outcome));
        assert Retry(send, req, st, retry, maxRetries, shouldRetry, backoff, last) == a;
        RetrySleeps(send, req.(header := s.header), slept, retry + 1, maxRetries, shouldRetry, backoff, Some(s.outcome));
        RetryStops(send, req.(header := s.header), slept, retry + 1, maxRetries, shouldRetry, backoff, Some(s.outcome));
        var to := if a.retries <= maxRetries then a.retries else maxRetries;
        SleepsExtend(st.sleeps, slept.sleeps, a.state.sleeps, backoff, retry, to, retry < maxRetries);
      }
    }
  }

  lemma SleepsExtend(before: seq<int>, slept: seq<int>, final: seq<int>, backoff: Backoff, retry: int, to: int, paused: bool)
    requires retry <= to && (paused ==> retry < to) && (!paused ==> to == retry)
    requires slept == if paused then before + [backoff(retry)] else before
    requires final == slept + Backoffs(backoff, retry + 1, to)
    ensures final == before + Backoffs(backoff, retry, to)
  {
    if paused {
      BackoffsCons(backoff, retry, to);
    }
  }

  lemma BackoffsCons(backoff: Backoff, from: int, to: int)
    requires from < to
    ensures [backoff(from)] + Backoffs(backoff, from + 1, to) == Backoffs(backoff, from, to)
  {
    var a := [backoff(from)] + Backoffs(backoff, from + 1, to);
    var b := Backoffs(backoff, from, to);
    assert |a| == |b|;
    forall i | 0 <= i < |a| ensures a[i] == b[i] {
      if i > 0 {
        assert a[i] == Backoffs(backoff, from + 1, to)[i - 1];
      }
    }
  }

  /** The loop as Do starts it: at least one attempt, at most maxRetries + 1, none for a negative maxRetries. */
  lemma AttemptCount(env: Env, t: Transport, req: Request, st: State, maxRetries: int, shouldRetry: RetryPredicate, backoff: Backoff)
    ensures var a := Retry(Sender(env, t), req, st, 0, maxRetries, shouldRetry, backoff, None);
      (maxRetries >= 0 ==> st.attempts + 1 <= a.state.attempts <= st.attempts + maxRetries + 1 && a.last.Some?)
      && (maxRetries < 0 ==> a.state.attempts == st.attempts && a.last.None?)
      && (maxRetries >= 0 && a.retries == maxRetries + 1 ==> |a.state.sleeps| == |st.sleeps| + maxRetries)
  {
    forall r, s ensures KeepsDoState(Sender(env, t)(r, s).state, s) {
      RoundTripKeepsDoState(env, t, r, s);
    }
    RetryStops(Sender(env, t), req, st, 0, maxRetries, shouldRetry, backoff, None);
    RetryAttempts(Sender(env, t), req, st, 0, maxRetries, shouldRetry, backoff, None);
    RetrySleeps(Sender(env, t), req, st, 0, maxRetries, shouldRetry, backoff, None);
  }

  /** Do's buffering of the final body: all bytes read (a read error is dropped), and a body that yields exactly them. */
  function Materialize(resp: Option<Response>): (r: (Option<Response>, string))
    ensures resp.None? || resp.value.body.None? ==> r == (resp, "")
    ensures resp.Some? && resp.value.body.Some? ==>
      r.1 == ReadAll(resp.value.body.value).0 && r.0 == Some(resp.value.(body := Some(Reader(r.1, None))))
      && ReadAll(r.0.value.body.value) == (r.1, None)
  {
    if resp.Some? && resp.value.body.Some? then
      var data := ReadAll(resp.value.body.value).0;
      (Some(resp.value.(body := Some(Reader(data, None)))), data)
    else (resp, "")
  }

  /** Do's result; Panicked when the fallback's error is not an *Error. */
  datatype DoResult = Returned(response: Option<Response>, error: Option<Error>) | Panicked

  predicate Failed(last: Option<Outcome>) {
    ErrorOf(last).Some? || (ResponseOf(last).Some? && ResponseOf(last).value.statusCode >= 400)
  }

  /**
   * The end of Do: a call fails on an error or a status of 400 or more; a
   * failing call returns the fallback's response and error when there is a
   * fallback (panicking unless that error is an *Error), and otherwise an
   * Error describing the last attempt.
   */
  function Classify(last: Option<Outcome>, retries: int, req: Request, fallback: Option<Fallback>): (r: DoResult)
    ensures !Failed(last) ==> r == Returned(Materialize(ResponseOf(last)).0, None)
    ensures Failed(last) && fallback.Some? ==>
      var f := fallback.value(req, ErrorOf(last));
      (f.error.ClientError? ==> r == Returned(f.response, f.error.e)) && (!f.error.ClientError? ==> r.Panicked?)
    ensures Failed(last) && fallback.None? ==>
      var (resp, body) := Materialize(ResponseOf(last));
      r.Returned? && r.response == resp && r.error.Some?
      && r.error.value == Error(if resp.Some? then resp.value.statusCode else 0, if resp.Some? then body else "",
                                ErrorOf(last), retries, req.httpMethod, req.url.text, resp)
  {
    var (resp, body) := Materialize(ResponseOf(last));
    var err := ErrorOf(last);
    if err.Some? || (resp.Some? && resp.value.statusCode >= 400) then
      if fallback.Some? then
        var f := fallback.value(req, err);
        match f.error
          case ClientError(e) => Returned(f.response, e)
          case _ => Panicked
      else
        Returned(resp, Some(Error(if resp.Some? then resp.value.statusCode else 0, if resp.Some? then body else "",
                                  err, retries, req.httpMethod, req.url.text, resp)))
    else Returned(resp, None)
  }

  /** A successful call never consults the fallback; a failing one without fallback reports a status of 0 exactly when there was no response. */
  lemma ClassifyFallbackOnlyOnFailure(last: Option<Outcome>, retries: int, req: Request, fallback: Option<Fallback>)
    ensures !Failed(last) ==> Classify(last, retries, req, fallback) == Classify(last, retries, req, None)
    ensures Failed(last) && fallback.None? && ResponseOf(last).None? ==>
      Classify(last, retries, req, fallback).error.value.statusCode == 0
      && Classify(last, retries, req, fallback).error.value.body == ""
  {
  }

  function DefaultHeaders(d: EndpointSettings): map<string, string>
    reads d
  {
    if d.headers.Some? then d.headers.value else map[]
  }

  /**
   * Do's settings: the chosen object (the endpoint's, else the defaults) is
   * filled in place by applyDefaults and ValidateEndpointConfig.
   */
  method Resolve(o: Options, httpMethod: string, path: string, appName: string) returns (s: EndpointSettings)
    requires o.defaultSettings != null
    modifies Chosen(o, httpMethod, path)
    ensures s == Chosen(o, httpMethod, path)
    ensures s.BasicFields() == Defaulted(old(s.BasicFields())) && s.Complete()
    ensures old(s.breaker) != null ==> s.breaker == old(s.breaker)
    ensures old(s.breaker) == null ==> fresh(s.breaker) && s.breaker.name == appName + "-breaker"
    ensures unchanged(s`shouldRetry, s`backoff, s`requireAuth, s`authTokenFn, s`enableCache, s`cacheTTL, s`fallback)
  {
    var cfg: EndpointSettings? := null;
    if o.endpointConfig.Some? {
      cfg := o.endpointConfig.value(httpMethod, path);
    }
    if cfg == null {
      cfg := o.defaultSettings;
    }
    s := ApplyDefaults(cfg, appName);
    ValidateEndpointConfig(s, path);
  }

  /**
   * Client.Do.  `used` is the settings object Do resolves and fills in place,
   * `filled` and `merged` the request header after the default and endpoint
   * header loops, and `sent` the request the first attempt sends.
   */
  method Do(c: Client, env: Env, parent: ParentCtx, req: OutgoingRequest, st: State)
    returns (r: DoResult, after: State, ghost used: EndpointSettings, ghost filled: Header, ghost merged: Header, ghost sent: Request)
    requires c.options.defaultSettings != null
    modifies req, Chosen(c.options, req.httpMethod, req.url.path)
    ensures used == Chosen(c.options, req.httpMethod, req.url.path)
    ensures used.BasicFields() == Defaulted(old(used.BasicFields())) && used.Complete()
    ensures old(used.breaker) != null ==> used.breaker == old(used.breaker)
    ensures old(used.breaker) == null ==> fresh(used.breaker) && used.breaker.name == env.appName + "-breaker"
    ensures unchanged(used`shouldRetry, used`backoff, used`requireAuth, used`authTokenFn, used`enableCache, used`cacheTTL, used`fallback)
    ensures sent.httpMethod == req.httpMethod && sent.url == req.url && sent.remoteAddr == req.remoteAddr
    ensures sent.ctx == Ctx(Some(used.View()), parent.incomingAuth, Some(Deadline(parent.deadline, env.now + used.timeout)))
    ensures FilledFrom(old(req.header), DefaultHeaders(c.options.defaultSettings), filled)
    ensures OverwrittenBy(filled, DefaultHeaders(used), merged)
    ensures sent.header == WithBearer(merged, BearerToken(used.authTokenFn, RequestInfo(req.httpMethod, req.url.path)))
    ensures var a := Retry(Sender(env, c.transport), sent, st, 0, used.maxRetries, ShouldRetryOf(used.shouldRetry), BackoffOf(used.backoff), None);
      after == a.state && req.header == a.header
      && r == Classify(a.last, a.retries, sent.(header := a.header), used.fallback)
  {
    var s := Resolve(c.options, req.httpMethod, req.url.path, env.appName);
    used := s;
    var ctx := Ctx(Some(s.View()), parent.incomingAuth, Some(Deadline(parent.deadline, env.now + s.timeout)));

    var defaults := DefaultHeaders(c.options.defaultSettings);
    var h1 := FillMissing(req.header, defaults);
    var h2 := SetAll(h1, DefaultHeaders(s));
    filled, merged := h1, h2;
    var token := BearerToken(s.authTokenFn, RequestInfo(req.httpMethod, req.url.path));
    req.header := WithBearer(h2, token);
    var first := Request(req.httpMethod, req.url, req.header, req.remoteAddr, ctx);
    sent := first;

    var last, retry;
    last, retry, after := RetryLoop(Sender(env, c.transport), req, first, st, s.maxRetries, ShouldRetryOf(s.shouldRetry), BackoffOf(s.backoff));
    r := Classify(last, retry, first.(header := req.header), s.fallback);
  }

  /**
   * Do's retry loop.  Every attempt sends the request with the header map as
   * the earlier attempts' decorators left it, since they update it in place.
   */
  method RetryLoop(send: AttemptFn, req: OutgoingRequest, base: Request, st: State, maxRetries: int,
                   shouldRetry: RetryPredicate, backoff: Backoff) returns (last: Option<Outcome>, retry: int, after: State)
    requires base.header == req.header
    modifies req
    ensures Retry(send, base, st, 0, maxRetries, shouldRetry, backoff, None) == Attempts(last, retry, req.header, after)
  {
    ghost var spec := Retry(send, base, st, 0, maxRetries, shouldRetry, backoff, None);
    last := None;
    retry := 0;
    after := st;
    while retry <= maxRetries
      invariant 0 <= retry
      invariant spec == Retry(send, base.(header := req.header), after, retry, maxRetries, shouldRetry, backoff, last)
      decreases maxRetries - retry + 1
    {
      var step := send(base.(header := req.header), after.(attempts := after.attempts + 1));
      req.header := step.header;
      after := step.state;
      last := Some(step.outcome);
      if !shouldRetry(ResponseOf(last), ErrorOf(last)) {
        break;
      }
      if retry < maxRetries {
        after := after.(sleeps := after.sleeps + [backoff(retry)]);
      }
      retry := retry + 1;
    }
  }

  const MethodGet := "GET"
  const MethodPost := "POST"
  const MethodPut := "PUT"
  const MethodPatch := "PATCH"
  const MethodDelete := "DELETE"
  const MethodHead := "HEAD"

  /**
   * The verb helpers Get, Post, Put, Patch, Delete and Head: a new request for
   * baseURL + path with the given headers set, handed to Do.  `parse` is
   * url.Parse; when it fails the request is nil and the helper panics.
   */
  method Send(c: Client, env: Env, parent: ParentCtx, verb: string, path: string, headers: map<string, string>,
              parse: string -> Option<URL>, st: State)
    returns (r: DoResult, after: State, ghost req: OutgoingRequest?, ghost initial: Header,
             ghost used: EndpointSettings?, ghost filled: Header, ghost merged: Header, ghost sent: Request)
    requires c.options.defaultSettings != null
    modifies if parse(c.options.baseURL + path).Some? then {Chosen(c.options, verb, parse(c.options.baseURL + path).value.path)} else {}
    ensures parse(c.options.baseURL + path).None? ==> r.Panicked? && after == st && req == null
    ensures parse(c.options.baseURL + path).Some? ==>
      req != null && fresh(req) && req.httpMethod == verb && req.url == parse(c.options.baseURL + path).value
      && req.remoteAddr == "" && OverwrittenBy(map[], headers, initial)
    ensures parse(c.options.baseURL + path).Some? ==>
      used == Chosen(c.options, verb, parse(c.options.baseURL + path).value.path)
      && sent.httpMethod == verb && sent.url == parse(c.options.baseURL + path).value && sent.remoteAddr == ""
      && sent.ctx == Ctx(Some(used.View()), parent.incomingAuth, Some(Deadline(parent.deadline, env.now + used.timeout)))
      && FilledFrom(initial, DefaultHeaders(c.options.defaultSettings), filled)
      && OverwrittenBy(filled, DefaultHeaders(used), merged)
      && sent.header == WithBearer(merged, BearerToken(used.authTokenFn, RequestInfo(verb, sent.url.path)))
      && var a := Retry(Sender(env, c.transport), sent, st, 0, used.maxRetries, ShouldRetryOf(used.shouldRetry), BackoffOf(used.backoff), None);
         after == a.state && r == Classify(a.last, a.retries, sent.(header := a.header), used.fallback)
  {
    var u := parse(c.options.baseURL + path);
    if u.None? {
      return Panicked, st, null, map[], null, map[], map[], Request(verb, URL(path, path), map[], "", Ctx(None, None, None));
    }
    var h := SetAll(map[], headers);
    initial := h;
    var q := new OutgoingRequest(verb, u.value, "", h);
    req := q;
    r, after, used, filled, merged, sent := Do(c, env, parent, q, st);
  }
}
