/** The application configuration records, their getters, and the
    process-wide configuration slot. */
module Configs {
  import opened Wrappers

  datatype ServerConfig = ServerConfig(port: int)

  datatype DatabaseConfig = DatabaseConfig(
    host: string,
    port: int,
    user: string,
    password: string,
    dbName: string,
    sslMode: string)

  datatype OpenWeatherConfig = OpenWeatherConfig(apiKey: string)

  /** `ttl` is in seconds. */
  datatype RedisConfig = RedisConfig(host: string, port: int, password: string, db: int, ttl: int)

  datatype Config = Config(
    server: ServerConfig,
    database: DatabaseConfig,
    openWeather: OpenWeatherConfig,
    redis: RedisConfig)
  {
    function GetServer(): (s: ServerConfig)
      ensures Config(s, database, openWeather, redis) == this
    {
      server
    }

    function GetDatabase(): (d: DatabaseConfig)
      ensures Config(server, d, openWeather, redis) == this
    {
      database
    }

    function GetOpenWeather(): (o: OpenWeatherConfig)
      ensures Config(server, database, o, redis) == this
    {
      openWeather
    }

    function GetRedis(): (r: RedisConfig)
      ensures Config(server, database, openWeather, r) == this
    {
      redis
    }
  }

  /** The four getters together lose nothing: they rebuild the configuration. */
  lemma GettersRebuild(c: Config)
    ensures Config(c.GetServer(), c.GetDatabase(), c.GetOpenWeather(), c.GetRedis()) == c
  {
  }

  /** The package-level configuration slot; `None` is a nil pointer. */
  class Registry {
    var global: Option<Config>

    /** At start-up nothing has been stored. */
    constructor ()
      ensures global == None
    {
      global := None;
    }

    function Global(): Option<Config>
      reads this`global
    {
      global
    }

    /** Overwrites the slot, so the last call wins. */
    method SetGlobal(cfg: Option<Config>)
      modifies this`global
      ensures Global() == cfg
    {
      global := cfg;
    }
  }
}
