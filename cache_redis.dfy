/**
 * pkg/cache/redis.go: the configuration rules of the Redis-backed Cache and the
 * way it maps go-redis replies onto the Cache contract.  The Redis server and the
 * go-redis client are not modelled: each call's reply is a parameter.
 */
module RedisCache {
  import opened Wrappers
  import opened Durations
  import opened CacheTypes

  const DefaultPoolSize := 10
  const DefaultDialTimeout := 5 * Second
  const ErrMissingAddr := "redis: missing Addr"
  const ErrNotEnabled := "redis: Redis cache is not enabled"

  class RedisConfig {
    var enabled: bool
    var addr: string
    var password: string
    var db: int
    var poolSize: int
    var dialTimeout: int

    constructor (enabled: bool, addr: string, password: string, db: int, poolSize: int, dialTimeout: int)
      ensures this.enabled == enabled && this.addr == addr && this.password == password && this.db == db
      ensures this.poolSize == poolSize && this.dialTimeout == dialTimeout
    {
      this.enabled, this.addr, this.password, this.db := enabled, addr, password, db;
      this.poolSize, this.dialTimeout := poolSize, dialTimeout;
    }

    /** Zero pool size and dial timeout become 10 and 5s; everything else is kept. */
    method ApplyDefaults()
      modifies this
      ensures poolSize == (if old(poolSize) == 0 then DefaultPoolSize else old(poolSize))
      ensures dialTimeout == (if old(dialTimeout) == 0 then DefaultDialTimeout else old(dialTimeout))
      ensures enabled == old(enabled) && addr == old(addr) && password == old(password) && db == old(db)
      ensures Validate() == old(Validate())
    {
      if poolSize == 0 {
        poolSize := DefaultPoolSize;
      }
      if dialTimeout == 0 {
        dialTimeout := DefaultDialTimeout;
      }
    }

    /** A disabled configuration is always valid; an enabled one needs an address. */
    function Validate(): (err: Option<string>)
      reads this
      ensures err.Some? <==> enabled && addr == ""
      ensures err.Some? ==> err.value == ErrMissingAddr
    {
      if !enabled then None
      else if addr == "" then Some(ErrMissingAddr)
      else None
    }
  }

  /** The redis.Options the constructor builds (the fields this package sets). */
  datatype RedisOptions = RedisOptions(
    addr: string, password: string, db: int, poolSize: int, dialTimeout: int,
    readTimeout: int, writeTimeout: int)

  /** The functional options WithPoolSize, WithReadTimeout and WithWriteTimeout. */
  datatype RedisOption = WithPoolSize(size: int) | WithReadTimeout(timeout: int) | WithWriteTimeout(timeout: int)

  function ApplyOption(o: RedisOptions, opt: RedisOption): (r: RedisOptions)
    ensures opt.WithPoolSize? ==> r == o.(poolSize := opt.size)
    ensures opt.WithReadTimeout? ==> r == o.(readTimeout := opt.timeout)
    ensures opt.WithWriteTimeout? ==> r == o.(writeTimeout := opt.timeout)
  {
    match opt
      case WithPoolSize(n) => o.(poolSize := n)
      case WithReadTimeout(t) => o.(readTimeout := t)
      case WithWriteTimeout(t) => o.(writeTimeout := t)
  }

  /** The options applied in order, each to the result of the previous ones. */
  function ApplyOptions(o: RedisOptions, opts: seq<RedisOption>): RedisOptions
    decreases |opts|
  {
    if opts == [] then o else ApplyOption(ApplyOptions(o, opts[..|opts| - 1]), opts[|opts| - 1])
  }

  /** A later option wins: the last WithPoolSize decides the pool size, whatever precedes it. */
  lemma {:induction false} LastPoolSizeWins(o: RedisOptions, opts: seq<RedisOption>, n: int)
    requires opts != [] && opts[|opts| - 1] == WithPoolSize(n)
    ensures ApplyOptions(o, opts).poolSize == n
  {
  }

  /** Options that do not touch a field leave it as it was. */
  lemma {:induction false} OptionsKeepAddress(o: RedisOptions, opts: seq<RedisOption>)
    ensures ApplyOptions(o, opts).addr == o.addr && ApplyOptions(o, opts).password == o.password
    ensures ApplyOptions(o, opts).db == o.db && ApplyOptions(o, opts).dialTimeout == o.dialTimeout
    decreases |opts|
  {
    if opts != [] {
      OptionsKeepAddress(o, opts[..|opts| - 1]);
    }
  }

  predicate IsRedisURL(addr: string) {
    "redis://" <= addr || "rediss://" <= addr
  }

  /**
   * NewRedisCacheFromConfig.  The configuration is passed by value, so defaults are
   * applied to a copy and the caller's object is not changed.  `parsed` is what
   * redis.ParseURL returns for the address and `ping` the error of the initial PING.
   * The functional options reach only the plain-address branch.
   */
  method NewRedisCacheFromConfig(cfg: RedisConfig, opts: seq<RedisOption>,
                                 parsed: Result<RedisOptions, string>, ping: Option<string>)
    returns (r: Result<RedisOptions, string>)
    ensures !cfg.enabled ==> r == Err(ErrNotEnabled)
    ensures cfg.enabled && cfg.addr == "" ==> r == Err(ErrMissingAddr)
    ensures cfg.enabled && cfg.addr != "" && IsRedisURL(cfg.addr) && parsed.Err? ==>
      r == Err("redis: invalid URL in Addr: " + parsed.error)
    ensures r.Ok? ==> cfg.enabled && cfg.addr != "" && ping.None?
    ensures r.Ok? && IsRedisURL(cfg.addr) ==> parsed.Ok? && r.value == parsed.value.(
      poolSize := if Pool(cfg.poolSize) > 0 then Pool(cfg.poolSize) else parsed.value.poolSize,
      dialTimeout := if Dial(cfg.dialTimeout) > 0 then Dial(cfg.dialTimeout) else parsed.value.dialTimeout)
    ensures r.Ok? && !IsRedisURL(cfg.addr) ==>
      r.value == ApplyOptions(RedisOptions(cfg.addr, cfg.password, cfg.db, Pool(cfg.poolSize), Dial(cfg.dialTimeout), 0, 0), opts)
    ensures cfg.enabled && cfg.addr != "" && (!IsRedisURL(cfg.addr) || parsed.Ok?) && ping.Some? ==>
      r == Err("error al conectar a Redis: " + ping.value)
  {
    var c := new RedisConfig(cfg.enabled, cfg.addr, cfg.password, cfg.db, cfg.poolSize, cfg.dialTimeout);
    c.ApplyDefaults();
    var invalid := c.Validate();
    if invalid.Some? {
      return Err(invalid.value);
    }
    if !c.enabled {
      return Err(ErrNotEnabled);
    }
    var options: RedisOptions;
    if "redis://" <= c.addr || "rediss://" <= c.addr {
      if parsed.Err? {
        return Err("redis: invalid URL in Addr: " + parsed.error);
      }
      options := parsed.value;
      if c.poolSize > 0 {
        options := options.(poolSize := c.poolSize);
      }
      if c.dialTimeout > 0 {
        options := options.(dialTimeout := c.dialTimeout);
      }
    } else {
      options := RedisOptions(c.addr, c.password, c.db, c.poolSize, c.dialTimeout, 0, 0);
      var i := 0;
      while i < |opts|
        invariant 0 <= i <= |opts|
        invariant options == ApplyOptions(RedisOptions(c.addr, c.password, c.db, c.poolSize, c.dialTimeout, 0, 0), opts[..i])
      {
        assert opts[..i + 1][..i] == opts[..i];
        options := ApplyOption(options, opts[i]);
        i := i + 1;
      }
      assert opts[..|opts|] == opts;
    }
    if ping.Some? {
      return Err("error al conectar a Redis: " + ping.value);
    }
    r := Ok(options);
  }

  /** The pool size and dial timeout after applyDefaults. */
  function Pool(n: int): (r: int)
    ensures r != 0 && (n != 0 ==> r == n)
  {
    if n == 0 then DefaultPoolSize else n
  }

  function Dial(t: int): (r: int)
    ensures r != 0 && (t != 0 ==> r == t)
  {
    if t == 0 then DefaultDialTimeout else t
  }

  /** What one go-redis command returned: a value, redis.Nil (no such key), or another error. */
  datatype Reply<T> = Replied(value: T) | NilReply | Failed(message: string)

  /** Get: a nil context and an empty key are refused before Redis is asked. */
  function Get(hasContext: bool, key: string, reply: Reply<string>): (r: Result<string, CacheError>)
    ensures !hasContext ==> r == Err(ErrInvalidContext)
    ensures hasContext && key == "" ==> r == Err(ErrInvalidKey)
    ensures hasContext && key != "" ==>
      (r.Ok? <==> reply.Replied?) && (r.Ok? ==> r.value == reply.value)
      && (reply.NilReply? ==> r == Err(ErrKeyNotFound))
      && (reply.Failed? ==> r == Err(Failure("redis get error: " + reply.message)))
  {
    if !hasContext then Err(ErrInvalidContext)
    else if key == "" then Err(ErrInvalidKey)
    else match reply
      case Replied(v) => Ok(v)
      case NilReply => Err(ErrKeyNotFound)
      case Failed(m) => Err(Failure("redis get error: " + m))
  }

  /** TTL: Redis answers -2 for a missing key and -1 for a key without expiry. */
  function TTL(reply: Result<int, string>): (r: Result<int, CacheError>)
    ensures reply.Err? ==> r == Err(Failure(reply.error))
    ensures reply.Ok? && reply.value == -2 ==> r == Err(ErrKeyNotFound)
    ensures reply.Ok? && reply.value == -1 ==> r == Ok(0)
    ensures reply.Ok? && reply.value != -2 && reply.value != -1 ==> r == Ok(reply.value)
  {
    match reply
      case Err(m) => Err(Failure(m))
      case Ok(t) => if t == -2 then Err(ErrKeyNotFound) else if t == -1 then Ok(0) else Ok(t)
  }

  /** Delete: DEL's count of removed keys, 0 meaning the key was missing. */
  function Delete(reply: Result<int, string>): (r: Option<CacheError>)
    ensures r.None? <==> reply.Ok? && reply.value != 0
    ensures reply.Ok? && reply.value == 0 ==> r == Some(ErrKeyNotFound)
  {
    match reply
      case Err(m) => Some(Failure(m))
      case Ok(n) => if n == 0 then Some(ErrKeyNotFound) else None
  }

  /** Exists: EXISTS's count, true when positive. */
  function Exists(reply: Result<int, string>): (r: Result<bool, CacheError>)
    ensures r.Ok? <==> reply.Ok?
    ensures r.Ok? ==> (r.value <==> reply.value > 0)
  {
    match reply
      case Err(m) => Err(Failure(m))
      case Ok(n) => Ok(n > 0)
  }

  /** Increment and Decrement (the verb is "increment" or "decrement" in the error text). */
  function Counter(verb: string, hasContext: bool, key: string, reply: Result<int, string>): (r: Result<int, CacheError>)
    ensures !hasContext ==> r == Err(ErrInvalidContext)
    ensures hasContext && key == "" ==> r == Err(ErrInvalidKey)
    ensures hasContext && key != "" ==> (r.Ok? <==> reply.Ok?) && (r.Ok? ==> r.value == reply.value)
    ensures hasContext && key != "" && reply.Err? ==>
      r == Err(Failure("failed to " + verb + " key " + key + ": " + reply.error))
  {
    if !hasContext then Err(ErrInvalidContext)
    else if key == "" then Err(ErrInvalidKey)
    else match reply
      case Ok(n) => Ok(n)
      case Err(m) => Err(Failure("failed to " + verb + " key " + key + ": " + m))
  }

  /** ZAdd and ZRem refuse an empty key before Redis is asked and otherwise pass on the command's error. */
  function ZWrite(key: string, reply: Option<string>): (r: Option<CacheError>)
    ensures key == "" ==> r == Some(Failure("key cannot be empty"))
    ensures key != "" ==> (r.None? <==> reply.None?) && (reply.Some? ==> r == Some(Failure(reply.value)))
  {
    if key == "" then Some(Failure("key cannot be empty"))
    else match reply
      case None => None
      case Some(m) => Some(Failure(m))
  }

  /** ZRange refuses an empty key the same way and wraps the command's error. */
  function ZRange(key: string, reply: Result<seq<string>, string>): (r: Result<seq<string>, CacheError>)
    ensures key == "" ==> r == Err(Failure("key cannot be empty"))
    ensures key != "" && reply.Ok? ==> r == Ok(reply.value)
    ensures key != "" && reply.Err? ==> r == Err(Failure("failed to get range from sorted set: " + reply.error))
  {
    if key == "" then Err(Failure("key cannot be empty"))
    else match reply
      case Ok(ms) => Ok(ms)
      case Err(m) => Err(Failure("failed to get range from sorted set: " + m))
  }

  /** MGET's reply is rewritten in place: every nil slot becomes "". */
  method BlankNils(result: array<Option<string>>)
    modifies result
    ensures forall i :: 0 <= i < result.Length ==>
      result[i] == (if old(result[i]).None? then Some("") else old(result[i]))
  {
    var i := 0;
    while i < result.Length
      invariant 0 <= i <= result.Length
      invariant forall j :: 0 <= j < i ==> result[j] == (if old(result[j]).None? then Some("") else old(result[j]))
      invariant forall j :: i <= j < result.Length ==> result[j] == old(result[j])
    {
      if result[i].None? {
        result[i] := Some("");
      }
      i := i + 1;
    }
  }

  /** MGet: no keys gives an empty list; otherwise Redis's reply, position for position, with "" for nil. */
  method MGet(hasContext: bool, keys: seq<string>, reply: Result<seq<Option<string>>, string>)
    returns (r: Result<seq<string>, CacheError>)
    ensures !hasContext ==> r == Err(ErrInvalidContext)
    ensures hasContext && keys == [] ==> r == Ok([])
    ensures hasContext && keys != [] && reply.Err? ==> r == Err(Failure(reply.error))
    ensures hasContext && keys != [] && reply.Ok? ==>
      (r.Ok? && |r.value| == |reply.value|
       && forall i :: 0 <= i < |reply.value| ==> r.value[i] == (if reply.value[i].None? then "" else reply.value[i].value))
  {
    if !hasContext {
      return Err(ErrInvalidContext);
    }
    if keys == [] {
      return Ok([]);
    }
    if reply.Err? {
      return Err(Failure(reply.error));
    }
    var slots := new Option<string>[|reply.value|](i requires 0 <= i < |reply.value| => reply.value[i]);
    BlankNils(slots);
    var out: seq<string> := [];
    var i := 0;
    while i < slots.Length
      invariant 0 <= i <= slots.Length && |out| == i
      invariant forall j :: 0 <= j < i ==> out[j] == (if reply.value[j].None? then "" else reply.value[j].value)
    {
      out := out + [slots[i].value];
      i := i + 1;
    }
    r := Ok(out);
  }
}
