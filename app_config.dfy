/**
 * pkg/config: the process-wide application configuration, initialised at most once,
 * and its typed "extras" lookups.
 */
module AppConfiguration {
  import opened Wrappers
  import opened Text

  /** A value in AppConfig.Extras (a map[string]interface{}). */
  datatype ExtraValue = StringValue(s: string) | IntValue(i: int) | OtherValue

  /** What Init reads from the host when a field is empty: DetectTimezone, runtime.GOOS and runtime.GOARCH. */
  datatype Host = Host(timezone: string, goos: string, goarch: string)

  const NotInitialized: string := "AppConfig not initialized: call config.Init first"

  class AppConfig {
    var appName: string
    var environment: string
    var port: string
    var timezone: Option<string>           // nil *time.Location is None
    var architecture: string
    var os: string
    var extras: Option<map<string, ExtraValue>>   // a nil map is None

    /** An AppConfig literal. */
    constructor (appName: string, environment: string, port: string, timezone: Option<string>,
                 architecture: string, os: string, extras: Option<map<string, ExtraValue>>)
      ensures this.appName == appName && this.environment == environment && this.port == port
      ensures this.timezone == timezone && this.architecture == architecture && this.os == os
      ensures this.extras == extras
    {
      this.appName, this.environment, this.port := appName, environment, port;
      this.timezone, this.architecture, this.os, this.extras := timezone, architecture, os, extras;
    }

    /** AppConfig{}: every field empty. */
    constructor Empty()
      ensures appName == "" && environment == "" && port == "" && timezone.None?
      ensures architecture == "" && os == "" && extras.None?
    {
      appName, environment, port, timezone := "", "", "", None;
      architecture, os, extras := "", "", None;
    }

    /** The value stored under key, looked up in a possibly nil map. */
    function Extra(key: string): Option<ExtraValue>
      reads this
    {
      if extras.Some? && key in extras.value then Some(extras.value[key]) else None
    }

    /** ExtraString: a stored string value, else the fallback. */
    function ExtraString(key: string, fallback: string): (r: string)
      reads this
      ensures Extra(key).Some? && Extra(key).value.StringValue? ==> r == Extra(key).value.s
      ensures !(Extra(key).Some? && Extra(key).value.StringValue?) ==> r == fallback
    {
      match Extra(key)
      case Some(StringValue(s)) => s
      case _ => fallback
    }

    /** ExtraInt: a stored int, or a stored string that strconv.Atoi accepts, else the fallback. */
    function ExtraInt(key: string, fallback: int): (r: int)
      reads this
      ensures Extra(key).Some? && Extra(key).value.IntValue? ==> r == Extra(key).value.i
      ensures Extra(key).Some? && Extra(key).value.StringValue? && ParseInt(Extra(key).value.s).Some?
              ==> r == ParseInt(Extra(key).value.s).value
      ensures Extra(key).None? || Extra(key).value.OtherValue? ==> r == fallback
      ensures Extra(key).Some? && Extra(key).value.StringValue? && ParseInt(Extra(key).value.s).None?
              ==> r == fallback
    {
      match Extra(key)
      case Some(IntValue(i)) => i
      case Some(StringValue(s)) => if ParseInt(s).Some? then ParseInt(s).value else fallback
      case _ => fallback
    }
  }

  /** A decimal string extra reads back through ExtraInt as the number it renders. */
  lemma ExtraIntReadsRenderedNumbers(c: AppConfig, key: string, n: int, fallback: int)
    requires InInt64(n) && c.Extra(key) == Some(StringValue(IntToString(n)))
    ensures c.ExtraInt(key, fallback) == n
  {
    ParseIntOfIntToString(n);
  }

  /** The package-level singleton: instance and the sync.Once guarding Init. */
  class Registry {
    var instance: AppConfig?
    var initDone: bool

    /** Init always stores the instance in the same step that spends the once. */
    ghost predicate Valid()
      reads this
    {
      initDone <==> instance != null
    }

    /** The state before any call: instance == nil, once unused. */
    constructor ()
      ensures Valid() && instance == null && !initDone
    {
      instance, initDone := null, false;
    }

    /**
     * Init: the first call fills the empty fields of cfg in place and makes cfg itself
     * the instance; every later call changes nothing.
     */
    method Init(cfg: AppConfig, host: Host)
      requires Valid()
      modifies this, cfg
      ensures Valid() && initDone
      ensures old(initDone) ==> instance == old(instance) && unchanged(cfg)
      ensures !old(initDone) ==> instance == cfg
      ensures !old(initDone) ==> cfg.appName == (if old(cfg.appName) == "" then "default-app" else old(cfg.appName))
      ensures !old(initDone) ==> cfg.environment == (if old(cfg.environment) == "" then "local" else old(cfg.environment))
      ensures !old(initDone) ==> cfg.port == (if old(cfg.port) == "" then "8080" else old(cfg.port))
      ensures !old(initDone) ==> cfg.timezone == (if old(cfg.timezone).None? then Some(host.timezone) else old(cfg.timezone))
      ensures !old(initDone) ==> cfg.os == (if old(cfg.os) == "" then host.goos else old(cfg.os))
      ensures !old(initDone) ==> cfg.architecture == (if old(cfg.architecture) == "" then host.goarch else old(cfg.architecture))
      ensures !old(initDone) ==> cfg.extras == (if old(cfg.extras).None? then Some(map[]) else old(cfg.extras))
    {
      if !initDone {
        var appName := if cfg.appName == "" then "default-app" else cfg.appName;
        var environment := if cfg.environment == "" then "local" else cfg.environment;
        var port := if cfg.port == "" then "8080" else cfg.port;
        var timezone := if cfg.timezone.None? then Some(host.timezone) else cfg.timezone;
        var os := if cfg.os == "" then host.goos else cfg.os;
        var architecture := if cfg.architecture == "" then host.goarch else cfg.architecture;
        var extras := if cfg.extras.None? then Some(map[]) else cfg.extras;
        cfg.appName, cfg.environment, cfg.port, cfg.timezone := appName, environment, port, timezone;
        cfg.os, cfg.architecture, cfg.extras := os, architecture, extras;
        instance, initDone := cfg, true;
      }
    }

    /** Get: the instance, initialising it first from AppConfig{} when there is none. */
    method Get(host: Host) returns (c: AppConfig)
      requires Valid()
      modifies this
      ensures Valid() && instance == c
      ensures old(instance) != null ==> c == old(instance)
      ensures old(instance) == null ==>
        (fresh(c) && c.appName == "default-app" && c.environment == "local"
         && c.port == "8080" && c.extras == Some(map[]) && c.timezone == Some(host.timezone)
         && c.os == host.goos && c.architecture == host.goarch)
    {
      if instance == null {
        var empty := new AppConfig.Empty();
        Init(empty, host);
      }
      c := instance;
    }

    /** MustGet: the instance, or the panic raised when nothing was initialised. */
    function MustGet(): (r: Result<AppConfig, string>)
      reads this
      ensures r.Ok? <==> instance != null
      ensures r.Ok? ==> r.value == instance
      ensures r.Err? ==> r.error == NotInitialized
    {
      if instance == null then Err(NotInitialized) else Ok(instance)
    }
  }

  /** TestGetAutoInitializes: Get on a fresh registry yields the defaults. */
  method GetAutoInitializesExample(host: Host) returns (c: AppConfig)
    ensures c.appName == "default-app" && c.port == "8080"
  {
    var r := new Registry();
    c := r.Get(host);
  }

  /** TestMustGetPanicsWhenNotInit: MustGet before any Init panics. */
  method MustGetPanicsWhenNotInitExample() returns (r: Result<AppConfig, string>)
    ensures r == Err(NotInitialized)
  {
    var reg := new Registry();
    r := reg.MustGet();
  }

  /** TestInitSetsValues: Init's fields are what Get returns; a second Init is ignored. */
  method InitSetsValuesExample(host: Host) returns (c: AppConfig)
    ensures c.appName == "my-app" && c.environment == "production" && c.port == "3000"
  {
    var r := new Registry();
    var cfg := new AppConfig("my-app", "production", "3000", None, "", "", None);
    r.Init(cfg, host);
    var later := new AppConfig("other-app", "", "", None, "", "", None);
    r.Init(later, host);
    c := r.Get(host);
  }
}
