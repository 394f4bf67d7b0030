/** Connecting to PostgreSQL: the connection string and the bounded retry loop.
    Connecting and opening the pool are parameters; sleeping is counted. */
module Postgres {
  import opened Wrappers
  import opened Domain
  import Strs

  /** The connection settings; `port` is kept but never used. */
  datatype PostgresConfig = PostgresConfig(
    host: string,
    port: string,
    user: string,
    password: string,
    dbName: string,
    sslMode: string)

  /** A connected database handle. */
  datatype Db = Db(handle: nat)

  /** The pool limits set on a successful connection. */
  datatype PoolSettings = PoolSettings(maxIdleConns: int, maxOpenConns: int, connMaxLifetime: Duration)

  const MaxRetries: nat := 5
  const RetryDelay: Duration := 5 * Second
  const Pool: PoolSettings := PoolSettings(10, 100, Hour)
  const ConnectFailed: string := "failed to connect to database after 5 retries"
  const InstanceFailed: string := "failed to get database instance"

  /** The settings of the connection string, in order; the port is always 5432. */
  function DsnSettings(pc: PostgresConfig): seq<string>
  {
    ["host=" + pc.host, "port=5432", "user=" + pc.user, "password=" + pc.password,
     "dbname=" + pc.dbName, "sslmode=" + pc.sslMode]
  }

  /** The key/value connection string: the settings separated by single spaces. */
  function GetDSN(pc: PostgresConfig): string
  {
    Strs.Join(DsnSettings(pc), ' ')
  }

  /** The configured port makes no difference. */
  lemma PortIgnored(pc: PostgresConfig, port: string)
    ensures GetDSN(pc.(port := port)) == GetDSN(pc)
  {
  }

  /** A label glued to a value has a space only if one of them has. */
  lemma NoSpace(tag: string, value: string)
    requires ' ' !in tag && ' ' !in value
    ensures ' ' !in tag + value
  {
    assert forall i :: 0 <= i < |tag + value| ==> (tag + value)[i] != ' ' by {
      forall i | 0 <= i < |tag + value| ensures (tag + value)[i] != ' ' {
        if i < |tag| {
          assert (tag + value)[i] == tag[i];
        } else {
          assert (tag + value)[i] == value[i - |tag|];
        }
      }
    }
  }

  /** Without spaces in the settings, the string splits at spaces into the six
      settings in order, so each can be read back. */
  lemma {:induction false} DsnFields(pc: PostgresConfig)
    requires ' ' !in pc.host && ' ' !in pc.user && ' ' !in pc.password
    requires ' ' !in pc.dbName && ' ' !in pc.sslMode
    ensures Strs.Split(GetDSN(pc), ' ') ==
      ["host=" + pc.host, "port=5432", "user=" + pc.user, "password=" + pc.password,
       "dbname=" + pc.dbName, "sslmode=" + pc.sslMode]
  {
    NoSpace("host=", pc.host);
    NoSpace("user=", pc.user);
    NoSpace("password=", pc.password);
    NoSpace("dbname=", pc.dbName);
    NoSpace("sslmode=", pc.sslMode);
    Strs.SplitJoinInverse(DsnSettings(pc), ' ');
  }

  /** Tries `connect` up to five times, stopping at the first success and
      sleeping after every failure, the last one included. When every attempt
      fails the last error is returned wrapped; after a success, a failure to
      open the pool is returned wrapped; otherwise the pool limits are set and
      the handle returned. `connect(dsn, i)` answers attempt `i`. */
  method NewPostgresConnection(config: PostgresConfig, connect: (string, nat) -> Result<Db>, sqlDb: Db -> Option<Error>)
    returns (r: Result<Db>, attempts: nat, sleeps: nat, pool: Option<PoolSettings>)
    ensures var dsn := GetDSN(config);
      && 1 <= attempts <= MaxRetries
      && (forall i :: 0 <= i < attempts - 1 ==> connect(dsn, i).Err?)
      && (connect(dsn, attempts - 1).Ok? || attempts == MaxRetries)
      && sleeps == (if connect(dsn, attempts - 1).Ok? then attempts - 1 else attempts)
    ensures var last := connect(GetDSN(config), attempts - 1);
      && (last.Err? ==> r == Err(Wrapped(ConnectFailed, last.error)) && pool == None)
      && (last.Ok? && sqlDb(last.value).Some? ==>
            r == Err(Wrapped(InstanceFailed, sqlDb(last.value).value)) && pool == None)
      && (last.Ok? && sqlDb(last.value).None? ==> r == Ok(last.value) && pool == Some(Pool))
  {
    var dsn := GetDSN(config);
    var db: Result<Db> := Err(Message(""));
    attempts, sleeps := 0, 0;
    while attempts < MaxRetries
      invariant 0 <= attempts <= MaxRetries
      invariant forall i :: 0 <= i < attempts ==> connect(dsn, i).Err?
      invariant sleeps == attempts
      invariant attempts > 0 ==> db == connect(dsn, attempts - 1)
    {
      db := connect(dsn, attempts);
      attempts := attempts + 1;
      if db.Ok? {
        break;
      }
      sleeps := sleeps + 1;
    }
    if db.Err? {
      return Err(Wrapped(ConnectFailed, db.error)), attempts, sleeps, None;
    }
    var poolErr := sqlDb(db.value);
    if poolErr.Some? {
      return Err(Wrapped(InstanceFailed, poolErr.value)), attempts, sleeps, None;
    }
    return Ok(db.value), attempts, sleeps, Some(Pool);
  }
}
