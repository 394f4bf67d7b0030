/** In-memory stand-ins for the three collaborators of the weather service: the
    relational store (a map keyed by record ID), the key-value cache (a map keyed
    by string), and the weather API client (a fixed reply per city/country).
    Every operation can be made to fail, and every call is recorded, so that the
    service's contracts can say which calls were made and in what order. */
module Collaborators {
  import opened Wrappers
  import opened Domain

  /** `gorm.ErrRecordNotFound`. */
  const RecordNotFound: Error := Sentinel("record not found")
  /** Any other storage failure (connectivity, a failed statement). */
  const StorageFailure: Error := Message("storage failure")
  /** An insert whose primary key is already taken. */
  const DuplicateKey: Error := Message("duplicate key value violates unique constraint")
  /** Any failure of the cache server itself. */
  const CacheFailure: Error := Message("cache failure")

  /** The error the cache adapter returns for an absent key. */
  function KeyNotFound(key: string): Error
  {
    Message("key not found: " + key)
  }

  /** Every row is stored under its own ID. */
  ghost predicate KeyedById(rows: map<string, Weather>)
  {
    forall id :: id in rows ==> rows[id].id == id
  }

  /** `v` lists every stored row exactly once, in some order. */
  ghost predicate IsListing(rows: map<string, Weather>, v: seq<Weather>)
  {
    && (forall i :: 0 <= i < |v| ==> v[i].id in rows && rows[v[i].id] == v[i])
    && (forall id :: id in rows ==> rows[id] in v)
    && (forall i, j :: 0 <= i < j < |v| ==> v[i].id != v[j].id)
  }

  /** Some row has this city. */
  ghost predicate HasCity(rows: map<string, Weather>, city: string)
  {
    exists id :: id in rows && rows[id].city == city
  }

  /** `w` is a stored row of `city` with the greatest fetch time among that city's rows. */
  ghost predicate IsLatest(rows: map<string, Weather>, city: string, w: Weather)
  {
    && w.id in rows && rows[w.id] == w && w.city == city
    && forall id :: id in rows && rows[id].city == city ==> rows[id].fetchedAt <= w.fetchedAt
  }

  datatype RepoOp = SaveOp | FindByIDOp | FindAllOp | FindLatestOp | UpdateOp | DeleteOp

  datatype RepoCall =
    | SaveCall(record: Weather)
    | FindByIDCall(id: string)
    | FindAllCall
    | FindLatestByCityCall(city: string)
    | UpdateCall(record: Weather)
    | DeleteCall(id: string)

  /** The weather repository: a table of rows keyed by ID. */
  class Repository {
    var rows: map<string, Weather>
    /** The operations that fail with `StorageFailure`. */
    var failing: set<RepoOp>
    var calls: seq<RepoCall>

    ghost predicate Valid()
      reads this
    {
      KeyedById(rows)
    }

    constructor (rows: map<string, Weather>, failing: set<RepoOp>)
      requires KeyedById(rows)
      ensures Valid() && this.rows == rows && this.failing == failing && calls == []
    {
      this.rows := rows;
      this.failing := failing;
      calls := [];
    }

    /** What `Save(w)` reports: a failure, or a taken primary key. */
    function SaveError(w: Weather): Option<Error>
      reads this`rows, this`failing
    {
      if SaveOp in failing then Some(StorageFailure)
      else if w.id in rows then Some(DuplicateKey)
      else None
    }

    /** What `FindByID(id)` answers. */
    function FindByIDResult(id: string): Result<Weather>
      reads this`rows, this`failing
    {
      if FindByIDOp in failing then Err(StorageFailure)
      else if id in rows then Ok(rows[id])
      else Err(RecordNotFound)
    }

    /** Inserts a new row. */
    method Save(w: Weather) returns (err: Option<Error>)
      requires Valid()
      modifies this`rows, this`calls
      ensures Valid()
      ensures err == old(SaveError(w))
      ensures rows == if err.None? then old(rows)[w.id := w] else old(rows)
      ensures calls == old(calls) + [SaveCall(w)]
    {
      err := SaveError(w);
      if err.None? {
        rows := rows[w.id := w];
      }
      calls := calls + [SaveCall(w)];
    }

    method FindByID(id: string) returns (r: Result<Weather>)
      modifies this`calls
      ensures r == FindByIDResult(id)
      ensures calls == old(calls) + [FindByIDCall(id)]
    {
      r := FindByIDResult(id);
      calls := calls + [FindByIDCall(id)];
    }

    /** Every row, in the order the table yields them. */
    method FindAll() returns (r: Result<seq<Weather>>)
      requires Valid()
      modifies this`calls
      ensures FindAllOp in failing ==> r == Err(StorageFailure)
      ensures FindAllOp !in failing ==> r.Ok? && IsListing(rows, r.value)
      ensures calls == old(calls) + [FindAllCall]
    {
      calls := calls + [FindAllCall];
      if FindAllOp in failing {
        return Err(StorageFailure);
      }
      var remaining := rows.Keys;
      var listed: seq<Weather> := [];
      while remaining != {}
        invariant remaining <= rows.Keys
        invariant forall i :: 0 <= i < |listed| ==>
          listed[i].id in rows && rows[listed[i].id] == listed[i] && listed[i].id !in remaining
        invariant forall id :: id in rows && id !in remaining ==> rows[id] in listed
        invariant forall i, j :: 0 <= i < j < |listed| ==> listed[i].id != listed[j].id
        decreases remaining
      {
        var id :| id in remaining;
        listed := listed + [rows[id]];
        remaining := remaining - {id};
      }
      r := Ok(listed);
    }

    /** The row of `city` with the latest fetch time (`ORDER BY fetched_at DESC`). */
    method FindLatestByCity(city: string) returns (r: Result<Weather>)
      requires Valid()
      modifies this`calls
      ensures FindLatestOp in failing ==> r == Err(StorageFailure)
      ensures FindLatestOp !in failing && !HasCity(rows, city) ==> r == Err(RecordNotFound)
      ensures FindLatestOp !in failing && HasCity(rows, city) ==> r.Ok? && IsLatest(rows, city, r.value)
      ensures calls == old(calls) + [FindLatestByCityCall(city)]
    {
      calls := calls + [FindLatestByCityCall(city)];
      if FindLatestOp in failing {
        return Err(StorageFailure);
      }
      var remaining := rows.Keys;
      var best: Option<Weather> := None;
      while remaining != {}
        invariant remaining <= rows.Keys
        invariant best.Some? ==> best.value.id in rows && rows[best.value.id] == best.value && best.value.city == city
        invariant forall id :: id in rows && id !in remaining && rows[id].city == city ==>
          best.Some? && rows[id].fetchedAt <= best.value.fetchedAt
        decreases remaining
      {
        var id :| id in remaining;
        var w := rows[id];
        if w.city == city && (best.None? || best.value.fetchedAt < w.fetchedAt) {
          best := Some(w);
        }
        remaining := remaining - {id};
      }
      if best.None? {
        r := Err(RecordNotFound);
      } else {
        r := Ok(best.value);
      }
    }

    /** Writes the full row for `w.id`, inserting it if absent. */
    method Update(w: Weather) returns (err: Option<Error>)
      requires Valid()
      modifies this`rows, this`calls
      ensures Valid()
      ensures err == if UpdateOp in failing then Some(StorageFailure) else None
      ensures rows == if err.None? then old(rows)[w.id := w] else old(rows)
      ensures calls == old(calls) + [UpdateCall(w)]
    {
      err := if UpdateOp in failing then Some(StorageFailure) else None;
      if err.None? {
        rows := rows[w.id := w];
      }
      calls := calls + [UpdateCall(w)];
    }

    /** Removes the row for `id`; an absent row is not an error. */
    method Delete(id: string) returns (err: Option<Error>)
      requires Valid()
      modifies this`rows, this`calls
      ensures Valid()
      ensures err == if DeleteOp in failing then Some(StorageFailure) else None
      ensures rows == if err.None? then old(rows) - {id} else old(rows)
      ensures calls == old(calls) + [DeleteCall(id)]
    {
      err := if DeleteOp in failing then Some(StorageFailure) else None;
      if err.None? {
        rows := rows - {id};
      }
      calls := calls + [DeleteCall(id)];
    }
  }

  /** The cache operations that only read; each can be made to fail for good. */
  datatype CacheOp = GetOp | KeysOp

  /** A cache call as recorded, writes with whether the server failed them. */
  datatype CacheCall =
    | GetCall(key: string)
    | SetCall(key: string, value: Weather, failed: bool)
    | DelCall(keys: seq<string>, failed: bool)
    | KeysCall(prefix: string)

  /** Whether the `i`-th upcoming write fails under a fault script; writes past
      the end of the script succeed. */
  function WriteFails(script: seq<bool>, i: nat): bool
  {
    i < |script| && script[i]
  }

  /** The fault script left after `n` writes. */
  function Consume(script: seq<bool>, n: nat): seq<bool>
  {
    if n <= |script| then script[n..] else []
  }

  /** After `n` writes, the `i`-th upcoming write is the `n + i`-th of the script. */
  lemma ConsumeShifts(script: seq<bool>, n: nat, i: nat)
    ensures WriteFails(Consume(script, n), i) == WriteFails(script, n + i)
  {
  }

  /** Consuming a fault script in two goes consumes it in one. */
  lemma ConsumeTwice(script: seq<bool>, m: nat, n: nat)
    ensures Consume(Consume(script, m), n) == Consume(script, m + n)
  {
  }

  /** The cache contents after one call: a write that the server failed changes nothing. */
  function Step(entries: map<string, Option<Weather>>, call: CacheCall): map<string, Option<Weather>>
  {
    match call
    case SetCall(key, value, failed) => if failed then entries else entries[key := Some(value)]
    case DelCall(keys, failed) => if failed then entries else entries - set k | k in keys
    case _ => entries
  }

  /** The cache contents after a sequence of calls, in order: what a caller's
      trace of calls did to the store. */
  function Replay(entries: map<string, Option<Weather>>, calls: seq<CacheCall>): map<string, Option<Weather>>
    decreases |calls|
  {
    if calls == [] then entries else Replay(Step(entries, calls[0]), calls[1..])
  }

  /** Replaying a trace in two pieces is replaying it whole. */
  lemma {:induction false} ReplayAppend(entries: map<string, Option<Weather>>, xs: seq<CacheCall>, ys: seq<CacheCall>)
    ensures Replay(entries, xs + ys) == Replay(Replay(entries, xs), ys)
    decreases |xs|
  {
    if xs != [] {
      assert (xs + ys)[0] == xs[0];
      assert (xs + ys)[1..] == xs[1..] + ys;
      ReplayAppend(Step(entries, xs[0]), xs[1..], ys);
    } else {
      assert xs + ys == ys;
    }
  }

  /** Replaying one more call steps the replayed state. */
  lemma ReplaySnoc(entries: map<string, Option<Weather>>, xs: seq<CacheCall>, c: CacheCall)
    ensures Replay(entries, xs + [c]) == Step(Replay(entries, xs), c)
  {
    ReplayAppend(entries, xs, [c]);
  }

  /** A read, a listing, or a write the server failed. */
  predicate LeavesStore(call: CacheCall)
  {
    match call
    case SetCall(_, _, failed) => failed
    case DelCall(_, failed) => failed
    case _ => true
  }

  /** Reads, listings and failed writes leave the store as it was. */
  lemma {:induction false} ReplayReadsOnly(entries: map<string, Option<Weather>>, calls: seq<CacheCall>)
    requires forall i :: 0 <= i < |calls| ==> LeavesStore(calls[i])
    ensures Replay(entries, calls) == entries
    decreases |calls|
  {
    if calls != [] {
      ReplayReadsOnly(entries, calls[1..]);
    }
  }

  /** The key-value cache. A value is a serialized record; `None` stands for a
      stored JSON `null`, which decodes into a nil pointer without an error. */
  class Cache {
    var entries: map<string, Option<Weather>>
    /** The read operations that fail with `CacheFailure`. */
    var failing: set<CacheOp>
    /** The outcome of each upcoming write (`Set` or `Delete`), in order:
        `true` means the server fails it with `CacheFailure`. */
    var writeFaults: seq<bool>
    var calls: seq<CacheCall>

    constructor (entries: map<string, Option<Weather>>, failing: set<CacheOp>, writeFaults: seq<bool>)
      ensures this.entries == entries && this.failing == failing && this.writeFaults == writeFaults
      ensures calls == []
    {
      this.entries := entries;
      this.failing := failing;
      this.writeFaults := writeFaults;
      calls := [];
    }

    /** What `Get(key)` answers: the stored value, or an error on a miss or a failure. */
    function GetResult(key: string): Result<Option<Weather>>
      reads this`entries, this`failing
    {
      if GetOp in failing then Err(CacheFailure)
      else if key in entries then Ok(entries[key])
      else Err(KeyNotFound(key))
    }

    /** What the next write answers. */
    function WriteError(): Option<Error>
      reads this`writeFaults
    {
      if WriteFails(writeFaults, 0) then Some(CacheFailure) else None
    }

    method Get(key: string) returns (r: Result<Option<Weather>>)
      modifies this`calls
      ensures r == GetResult(key)
      ensures calls == old(calls) + [GetCall(key)]
    {
      r := GetResult(key);
      calls := calls + [GetCall(key)];
    }

    /** Stores `value` under `key` with the default TTL (expiry is not modelled). */
    method Set(key: string, value: Weather) returns (err: Option<Error>)
      modifies this`entries, this`writeFaults, this`calls
      ensures err == old(WriteError())
      ensures entries == if err.None? then old(entries)[key := Some(value)] else old(entries)
      ensures writeFaults == Consume(old(writeFaults), 1)
      ensures calls == old(calls) + [SetCall(key, value, err.Some?)]
    {
      err := WriteError();
      if err.None? {
        entries := entries[key := Some(value)];
      }
      writeFaults := Consume(writeFaults, 1);
      calls := calls + [SetCall(key, value, err.Some?)];
    }

    /** Removes every key in `keys` in one round trip. */
    method Delete(keys: seq<string>) returns (err: Option<Error>)
      modifies this`entries, this`writeFaults, this`calls
      ensures err == old(WriteError())
      ensures entries == if err.None? then old(entries) - set k | k in keys else old(entries)
      ensures writeFaults == Consume(old(writeFaults), 1)
      ensures calls == old(calls) + [DelCall(keys, err.Some?)]
    {
      err := WriteError();
      if err.None? {
        entries := entries - set k | k in keys;
      }
      writeFaults := Consume(writeFaults, 1);
      calls := calls + [DelCall(keys, err.Some?)];
    }

    /** `KEYS prefix*`: every stored key that starts with `prefix`, once each, in
        the server's order. */
    method Keys(prefix: string) returns (r: Result<seq<string>>)
      modifies this`calls
      ensures KeysOp in failing ==> r == Err(CacheFailure)
      ensures KeysOp !in failing ==> r.Ok?
      ensures r.Ok? ==> forall i :: 0 <= i < |r.value| ==> r.value[i] in entries && prefix <= r.value[i]
      ensures r.Ok? ==> forall k :: k in entries && prefix <= k ==> k in r.value
      ensures r.Ok? ==> forall i, j :: 0 <= i < j < |r.value| ==> r.value[i] != r.value[j]
      ensures calls == old(calls) + [KeysCall(prefix)]
    {
      calls := calls + [KeysCall(prefix)];
      if KeysOp in failing {
        return Err(CacheFailure);
      }
      var remaining := entries.Keys;
      var found: seq<string> := [];
      while remaining != {}
        invariant remaining <= entries.Keys
        invariant forall i :: 0 <= i < |found| ==> found[i] in entries && prefix <= found[i] && found[i] !in remaining
        invariant forall k :: k in entries && prefix <= k && k !in remaining ==> k in found
        invariant forall i, j :: 0 <= i < j < |found| ==> found[i] != found[j]
        decreases remaining
      {
        var k :| k in remaining;
        if prefix <= k {
          found := found + [k];
        }
        remaining := remaining - {k};
      }
      r := Ok(found);
    }
  }

  /** The weather API client: `replies` fixes what it answers for each city/country. */
  class WeatherApi {
    const replies: (string, string) -> Result<Reading>
    var calls: seq<(string, string)>

    constructor (replies: (string, string) -> Result<Reading>)
      ensures this.replies == replies && calls == []
    {
      this.replies := replies;
      calls := [];
    }

    method FetchWeatherData(city: string, country: string) returns (r: Result<Reading>)
      modifies this`calls
      ensures r == replies(city, country)
      ensures calls == old(calls) + [(city, country)]
    {
      r := replies(city, country);
      calls := calls + [(city, country)];
    }
  }
}
