/** Loading the configuration from the process environment: the optional
    `.env` file search, the per-setting defaults, and the load-once entry point.
    The environment is a map from variable names to values. */
module EnvLoader {
  import opened Wrappers
  import opened Configs
  import Strs

  type Env = map<string, string>

  /** Where a `.env` file is looked for, in order. */
  const Locations: seq<string> :=
    [".env", "/app/.env", "/.env", "internal/configs/.env", "internal/configs/config.env"]

  const DefaultServerPort: int := 8080
  const DefaultDbPort: int := 5432
  const DefaultRedisPort: int := 6379
  const DefaultRedisTtl: int := 600
  const DefaultRedisDb: int := 0

  /** `os.Getenv`: an unset variable reads as "". */
  function Getenv(env: Env, key: string): string
  {
    if key in env then env[key] else ""
  }

  /** The variable's value unless it is unset or empty, and then the default. */
  function GetEnvOrDefault(env: Env, key: string, default: string): (v: string)
    ensures key in env && env[key] != "" ==> v == env[key]
    ensures key !in env || env[key] == "" ==> v == default
  {
    var value := Getenv(env, key);
    if value == "" then default else value
  }

  /** An integer setting: the parsed text when it is a decimal integer (no range
      check), the default when it is empty or does not parse. */
  function IntSetting(text: string, default: int): (n: int)
    ensures Strs.Atoi(text).Some? ==> n == Strs.Atoi(text).value
    ensures Strs.Atoi(text).None? ==> n == default
  {
    if text != "" then
      match Strs.Atoi(text)
      case Some(v) => v
      case None => default
    else default
  }

  /** The configuration the environment describes. The Redis integers are read
      through `GetEnvOrDefault` with the default's text, so an empty value means
      the same as an absent one for them too. */
  function ConfigFromEnv(env: Env): Config
  {
    var redisPort := IntSetting(GetEnvOrDefault(env, "REDIS_PORT", "6379"), DefaultRedisPort);
    var redisTtl := IntSetting(GetEnvOrDefault(env, "REDIS_TTL", "600"), DefaultRedisTtl);
    var redisDb := IntSetting(GetEnvOrDefault(env, "REDIS_DB", "0"), DefaultRedisDb);
    Config(
      ServerConfig(IntSetting(Getenv(env, "SERVER_PORT"), DefaultServerPort)),
      DatabaseConfig(
        GetEnvOrDefault(env, "DB_HOST", "localhost"),
        IntSetting(Getenv(env, "DB_PORT"), DefaultDbPort),
        GetEnvOrDefault(env, "DB_USER", "postgres"),
        GetEnvOrDefault(env, "DB_PASSWORD", ""),
        GetEnvOrDefault(env, "DB_NAME", "weather"),
        GetEnvOrDefault(env, "DB_SSLMODE", "disable")),
      OpenWeatherConfig(Getenv(env, "OPENWEATHER_API_KEY")),
      RedisConfig(
        GetEnvOrDefault(env, "REDIS_HOST", "localhost"),
        redisPort,
        GetEnvOrDefault(env, "REDIS_PASSWORD", ""),
        redisDb,
        redisTtl))
  }

  /** The configuration of an environment that sets none of the variables. */
  const DefaultConfig: Config := Config(
    ServerConfig(8080),
    DatabaseConfig("localhost", 5432, "postgres", "", "weather", "disable"),
    OpenWeatherConfig(""),
    RedisConfig("localhost", 6379, "", 0, 600))

  /** An empty environment yields every default, a missing API key included. */
  lemma {:induction false} EmptyEnvGivesDefaults()
    ensures ConfigFromEnv(map[]) == DefaultConfig
  {
    DefaultTextsParse();
  }

  /** The default texts of the Redis integers parse to their defaults. */
  lemma {:induction false} DefaultTextsParse()
    ensures Strs.Atoi("6379") == Some(DefaultRedisPort)
    ensures Strs.Atoi("600") == Some(DefaultRedisTtl)
    ensures Strs.Atoi("0") == Some(DefaultRedisDb)
  {
    Strs.AtoiItoa(6379);
    Strs.AtoiItoa(600);
    Strs.AtoiItoa(0);
    assert Strs.Itoa(6379) == "6379" by {
      assert Strs.NatDigits(6) == "6";
      assert Strs.NatDigits(63) == "63";
      assert Strs.NatDigits(637) == "637";
    }
    assert Strs.Itoa(600) == "600" by {
      assert Strs.NatDigits(60) == "60";
    }
  }

  /** A server or database port written as a decimal integer is taken as is,
      whatever its value; so is a Redis port. */
  lemma {:induction false} PortsParsed(env: Env, server: int, db: int, redis: int)
    requires env.Keys >= {"SERVER_PORT", "DB_PORT", "REDIS_PORT"}
    requires env["SERVER_PORT"] == Strs.Itoa(server)
    requires env["DB_PORT"] == Strs.Itoa(db)
    requires env["REDIS_PORT"] == Strs.Itoa(redis)
    ensures ConfigFromEnv(env).server.port == server
    ensures ConfigFromEnv(env).database.port == db
    ensures ConfigFromEnv(env).redis.port == redis
  {
    Strs.AtoiItoa(server);
    Strs.AtoiItoa(db);
    Strs.AtoiItoa(redis);
    Strs.ItoaSign(redis);
  }

  /** Each integer setting whose value is not a decimal integer falls back to
      its own default, whatever the other variables hold. */
  lemma UnparsablePortsFallBack(env: Env)
    ensures Strs.Atoi(Getenv(env, "SERVER_PORT")).None? ==> ConfigFromEnv(env).server.port == DefaultServerPort
    ensures Strs.Atoi(Getenv(env, "DB_PORT")).None? ==> ConfigFromEnv(env).database.port == DefaultDbPort
    ensures Strs.Atoi(Getenv(env, "REDIS_PORT")).None? ==> ConfigFromEnv(env).redis.port == DefaultRedisPort
    ensures Strs.Atoi(Getenv(env, "REDIS_TTL")).None? ==> ConfigFromEnv(env).redis.ttl == DefaultRedisTtl
    ensures Strs.Atoi(Getenv(env, "REDIS_DB")).None? ==> ConfigFromEnv(env).redis.db == DefaultRedisDb
  {
    DefaultTextsParse();
  }

  /** The environment after loading a `.env` file: variables that are already
      set, even to "", keep their value; the file adds the others. */
  function Overlay(env: Env, file: Env): (e: Env)
    ensures e.Keys == env.Keys + file.Keys
    ensures forall k :: k in env ==> e[k] == env[k]
    ensures forall k :: k in file && k !in env ==> e[k] == file[k]
  {
    map k | k in env.Keys + file.Keys :: if k in env then env[k] else file[k]
  }

  /** The first of `locs` whose file loads; `files` holds the parsed contents of
      every file that loads. */
  function FirstLoadable(locs: seq<string>, files: map<string, Env>): (r: Option<string>)
    ensures r.Some? ==> r.value in files && r.value in locs
  {
    if locs == [] then None
    else if locs[0] in files then Some(locs[0])
    else FirstLoadable(locs[1..], files)
  }

  /** `FirstLoadable` picks a loadable location with no loadable one before it,
      and finds none only when none loads. */
  lemma {:induction false} FirstLoadableIsFirst(locs: seq<string>, files: map<string, Env>)
    ensures var r := FirstLoadable(locs, files);
      && (r.None? <==> forall i :: 0 <= i < |locs| ==> locs[i] !in files)
      && (r.Some? ==> exists i :: 0 <= i < |locs| && locs[i] == r.value && r.value in files &&
                                  forall j :: 0 <= j < i ==> locs[j] !in files)
  {
    if locs != [] && locs[0] !in files {
      FirstLoadableIsFirst(locs[1..], files);
      var r := FirstLoadable(locs, files);
      if r.Some? {
        var i :| 0 <= i < |locs[1..]| && locs[1..][i] == r.value && r.value in files &&
                 forall j :: 0 <= j < i ==> locs[1..][j] !in files;
        assert locs[i + 1] == r.value;
        assert forall j :: 0 <= j < i + 1 ==> locs[j] !in files by {
          forall j | 0 <= j < i + 1 ensures locs[j] !in files {
            if j > 0 {
              assert locs[j] == locs[1..][j - 1];
            }
          }
        }
      } else {
        assert forall i :: 0 <= i < |locs| ==> locs[i] !in files by {
          forall i | 0 <= i < |locs| ensures locs[i] !in files {
            if i > 0 {
              assert locs[i] == locs[1..][i - 1];
            }
          }
        }
      }
    }
  }

  /** Tries the locations in order and loads the first file that loads; finding
      none is only a warning, so the error is always nil. */
  method LoadEnvFile(env: Env, files: map<string, Env>) returns (newEnv: Env, loadedFrom: Option<string>, err: Option<Error>)
    ensures loadedFrom == FirstLoadable(Locations, files)
    ensures newEnv == if loadedFrom.Some? then Overlay(env, files[loadedFrom.value]) else env
    ensures loadedFrom.Some? ==> loadedFrom.value in Locations
    ensures err == None
  {
    var i := 0;
    while i < |Locations|
      invariant 0 <= i <= |Locations|
      invariant FirstLoadable(Locations, files) == FirstLoadable(Locations[i..], files)
    {
      var loc := Locations[i];
      if loc in files {
        return Overlay(env, files[loc]), Some(loc), None;
      }
      assert Locations[i..][1..] == Locations[i + 1..];
      i := i + 1;
    }
    return env, None, None;
  }

  /** `loadConfig`: load a `.env` file if one loads, then read the settings
      from the resulting environment. It never fails. */
  method LoadConfig(env: Env, files: map<string, Env>) returns (cfg: Config, newEnv: Env, err: Option<Error>)
    ensures var loaded := FirstLoadable(Locations, files);
      newEnv == if loaded.Some? then Overlay(env, files[loaded.value]) else env
    ensures cfg == ConfigFromEnv(newEnv)
    ensures err == None
  {
    var loadedFrom, loadErr;
    newEnv, loadedFrom, loadErr := LoadEnvFile(env, files);
    cfg := ConfigFromEnv(newEnv);
    err := None;
  }

  /** Returns the stored configuration without loading when there is one;
      otherwise loads it, stores it, and returns it. Either way the slot holds
      the returned configuration afterwards, so later calls return the same one. */
  method MustLoad(registry: Registry, env: Env, files: map<string, Env>) returns (cfg: Config, newEnv: Env)
    modifies registry`global
    ensures registry.Global() == Some(cfg)
    ensures old(registry.Global()).Some? ==> cfg == old(registry.Global()).value && newEnv == env
    ensures old(registry.Global()).None? ==>
      var loaded := FirstLoadable(Locations, files);
      && newEnv == (if loaded.Some? then Overlay(env, files[loaded.value]) else env)
      && cfg == ConfigFromEnv(newEnv)
  {
    var current := registry.Global();
    if current.Some? {
      return current.value, env;
    }
    var err;
    cfg, newEnv, err := LoadConfig(env, files);
    registry.SetGlobal(Some(cfg));
  }
}
