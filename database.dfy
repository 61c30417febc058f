/**
 * pkg/database: the connection configuration, its validation, its defaults and the
 * data source name handed to the driver.
 */
module Database {
  import opened Wrappers
  import opened Durations

  const ErrInvalidDialect: string := "database: invalid dialect"
  const ErrMissingFields: string := "database: missing required fields"
  const MemoryDSN: string := "file::memory:?cache=shared"

  predicate KnownDialect(d: string) { d == "mysql" || d == "postgres" || d == "sqlite" }

  class Config {
    var enabled: bool
    var dialect: string
    var dsn: string
    var host: string
    var port: string
    var user: string
    var password: string
    var dbName: string
    var sslMode: string
    var maxIdle: int
    var maxOpen: int
    var maxLifetime: int

    /** A Config literal. */
    constructor (enabled: bool, dialect: string, dsn: string, host: string, port: string, user: string,
                 password: string, dbName: string, sslMode: string, maxIdle: int, maxOpen: int, maxLifetime: int)
      ensures this.enabled == enabled && this.dialect == dialect && this.dsn == dsn && this.host == host
      ensures this.port == port && this.user == user && this.password == password && this.dbName == dbName
      ensures this.sslMode == sslMode && this.maxIdle == maxIdle && this.maxOpen == maxOpen
      ensures this.maxLifetime == maxLifetime
    {
      this.enabled, this.dialect, this.dsn, this.host, this.port := enabled, dialect, dsn, host, port;
      this.user, this.password, this.dbName, this.sslMode := user, password, dbName, sslMode;
      this.maxIdle, this.maxOpen, this.maxLifetime := maxIdle, maxOpen, maxLifetime;
    }

    predicate HasServerFields()
      reads this
    {
      host != "" && port != "" && user != "" && password != "" && dbName != ""
    }

    /** Config.applyDefaults: zero pool settings and an empty postgres SSL mode get defaults; set values stay. */
    method ApplyDefaults()
      modifies this
      ensures maxIdle == if old(maxIdle) == 0 then 10 else old(maxIdle)
      ensures maxOpen == if old(maxOpen) == 0 then 100 else old(maxOpen)
      ensures maxLifetime == if old(maxLifetime) == 0 then Hour else old(maxLifetime)
      ensures sslMode == if old(sslMode) == "" && dialect == "postgres" then "disable" else old(sslMode)
      ensures enabled == old(enabled) && dialect == old(dialect) && dsn == old(dsn) && host == old(host)
      ensures port == old(port) && user == old(user) && password == old(password) && dbName == old(dbName)
      ensures Validate() == old(Validate()) && BuildDSN() == old(BuildDSN())
    {
      if maxIdle == 0 { maxIdle := 10; }
      if maxOpen == 0 { maxOpen := 100; }
      if maxLifetime == 0 { maxLifetime := Hour; }
      if sslMode == "" && dialect == "postgres" { sslMode := "disable"; }
    }

    /** Config.Validate: None when the configuration is usable (or disabled), else the error message. */
    function Validate(): (err: Option<string>)
      reads this
      ensures !enabled ==> err.None?
      ensures enabled && !KnownDialect(dialect) ==> err == Some(ErrInvalidDialect)
      ensures enabled && KnownDialect(dialect) ==>
        (err.None? <==> dialect == "sqlite" || HasServerFields())
      ensures err.Some? ==> err.value in {ErrInvalidDialect, ErrMissingFields}
    {
      if !enabled then None
      else if !KnownDialect(dialect) then Some(ErrInvalidDialect)
      else if dialect != "sqlite" && !HasServerFields() then Some(ErrMissingFields)
      else None
    }

    /** buildDSN: the driver's connection string for the three dialects. */
    function BuildDSN(): (r: Result<string, string>)
      reads this
      ensures r.Ok? <==> KnownDialect(dialect)
      ensures dialect == "mysql" ==> r == Ok(user + ":" + password + "@tcp(" + host + ":" + port + ")/" + dbName
                                          + "?charset=utf8mb4&parseTime=True&loc=Local")
      ensures dialect == "postgres" ==> r == Ok("host=" + host + " port=" + port + " user=" + user
                                             + " password=" + password + " dbname=" + dbName
                                             + " sslmode=" + (if sslMode == "" then "disable" else sslMode))
      ensures dialect == "sqlite" ==> r == Ok(if dsn != "" then dsn else MemoryDSN)
      ensures r.Err? ==> r.error == "database: unsupported dialect '" + dialect + "'"
    {
      if dialect == "mysql" then
        Ok(user + ":" + password + "@tcp(" + host + ":" + port + ")/" + dbName + "?charset=utf8mb4&parseTime=True&loc=Local")
      else if dialect == "postgres" then
        var mode := if sslMode == "" then "disable" else sslMode;
        Ok("host=" + host + " port=" + port + " user=" + user + " password=" + password + " dbname=" + dbName + " sslmode=" + mode)
      else if dialect == "sqlite" then
        Ok(if dsn != "" then dsn else MemoryDSN)
      else
        Err("database: unsupported dialect '" + dialect + "'")
    }
  }

  /** An enabled configuration that validates always has a data source name. */
  lemma ValidEnabledConfigBuildsDSN(c: Config)
    requires c.enabled && c.Validate().None?
    ensures c.BuildDSN().Ok?
  {
  }

  /** A disabled configuration validates whatever else it holds, but still needs a known dialect for a DSN. */
  lemma DisabledConfigValidates(c: Config)
    requires !c.enabled
    ensures c.Validate().None?
    ensures c.BuildDSN().Ok? <==> KnownDialect(c.dialect)
  {
  }

  /** TestConfig_ApplyDefaults: the postgres, mysql and already-set configurations. */
  method ApplyDefaultsExample() returns (pg: Config, my: Config, preset: Config)
    ensures pg.maxIdle == 10 && pg.maxOpen == 100 && pg.maxLifetime == Hour && pg.sslMode == "disable"
    ensures my.sslMode == ""
    ensures preset.maxIdle == 5 && preset.maxOpen == 50 && preset.maxLifetime == 30 * Minute && preset.sslMode == "require"
  {
    pg := new Config(false, "postgres", "", "", "", "", "", "", "", 0, 0, 0);
    pg.ApplyDefaults();
    my := new Config(false, "mysql", "", "", "", "", "", "", "", 0, 0, 0);
    my.ApplyDefaults();
    preset := new Config(false, "postgres", "", "", "", "", "", "", "require", 5, 50, 30 * Minute);
    preset.ApplyDefaults();
  }

  /** TestBuildDSN_SQLite and TestBuildDSN_UnsupportedDialect. */
  method BuildDSNExamples() returns (file: Result<string, string>, memory: Result<string, string>, oracle: Result<string, string>)
    ensures file == Ok("/tmp/test.db")
    ensures memory == Ok("file::memory:?cache=shared")
    ensures oracle.Err?
  {
    var c := new Config(false, "sqlite", "/tmp/test.db", "", "", "", "", "", "", 0, 0, 0);
    file := c.BuildDSN();
    var c2 := new Config(false, "sqlite", "", "", "", "", "", "", "", 0, 0, 0);
    memory := c2.BuildDSN();
    var c3 := new Config(false, "oracle", "", "", "", "", "", "", "", 0, 0, 0);
    oracle := c3.BuildDSN();
  }
}
