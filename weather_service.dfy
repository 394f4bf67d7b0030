/** The cache-aside weather service: it answers from the cache when it can,
    falls back to the weather API and the repository, and keeps the cache's
    city/country and ID keys in step with what it stores. Cache failures are
    only logged; API and repository failures end the operation. */
module WeatherService {
  import opened Wrappers
  import opened Domain
  import opened Collaborators
  import opened WeatherCache

  /** The cache calls a successful update makes, each write with the outcome
      the fault script gives it: refresh the ID key, evict the old city/country
      key when the location moved, then write the new one. */
  function UpdateCacheCalls(id: string, before: Weather, after: Weather, faults: seq<bool>): seq<CacheCall>
  {
    if before.city != after.city || before.country != after.country then
      [SetCall(id, after, WriteFails(faults, 0)),
       DelCall([CityKey(before.city, before.country)], WriteFails(faults, 1)),
       SetCall(CityKey(after.city, after.country), after, WriteFails(faults, 2))]
    else
      [SetCall(id, after, WriteFails(faults, 0)),
       SetCall(CityKey(after.city, after.country), after, WriteFails(faults, 1))]
  }

  /** The cache calls a successful delete makes: evict the ID key, and the
      city/country key when the record could be loaded beforehand. */
  function DeleteCacheCalls(id: string, loaded: Option<Weather>, faults: seq<bool>): seq<CacheCall>
  {
    [DelCall([id], WriteFails(faults, 0))]
    + (if loaded.Some? then [DelCall([CityKey(loaded.value.city, loaded.value.country)], WriteFails(faults, 1))] else [])
  }

  /** The cache writes a fetch that missed the cache and stored a new record
      makes: the city/country key, then the ID key. */
  function FetchCacheWrites(key: string, record: Weather, faults: seq<bool>): seq<CacheCall>
  {
    [SetCall(key, record, WriteFails(faults, 0)), SetCall(record.id, record, WriteFails(faults, 1))]
  }

  /** `k` holds in `after` exactly what it held in `before`, or is absent from both. */
  ghost predicate SameAt(before: map<string, Option<Weather>>, after: map<string, Option<Weather>>, k: string)
  {
    (k in before <==> k in after) && (k in before ==> after[k] == before[k])
  }

  /** The weather service over a repository, a weather API client and a cache. */
  class WeatherService {
    const repo: Repository
    const api: WeatherApi
    const cache: Cache

    constructor (repo: Repository, api: WeatherApi, cache: Cache)
      ensures this.repo == repo && this.api == api && this.cache == cache
    {
      this.repo := repo;
      this.api := api;
      this.cache := cache;
    }

    /** A cached value for the city/country key is returned as is (a stored
        null included) without calling the API or the repository. On a miss the
        API is asked; its error is returned unchanged and nothing is saved.
        Otherwise a record is built from the reading with `newId` and the clock
        `now`, saved, and on success written to the cache under the
        city/country key and under its ID; cache write failures do not change
        the result. A save failure is returned and nothing is cached. */
    method FetchAndStoreWeather(city: string, country: string, newId: string, now: Time)
      returns (r: Result<Option<Weather>>)
      requires repo.Valid()
      modifies repo`rows, repo`calls, api`calls, cache`entries, cache`writeFaults, cache`calls
      ensures repo.Valid()
      ensures var key := CityKey(city, country);
        var hit := old(cache.GetResult(key));
        var reply := api.replies(city, country);
        var faults := old(cache.writeFaults);
        if hit.Ok? then
          && r == Ok(hit.value)
          && api.calls == old(api.calls)
          && repo.calls == old(repo.calls) && repo.rows == old(repo.rows)
          && cache.calls == old(cache.calls) + [GetCall(key)]
          && cache.entries == old(cache.entries) && cache.writeFaults == faults
        else if reply.Err? then
          && r == Err(reply.error)
          && api.calls == old(api.calls) + [(city, country)]
          && repo.calls == old(repo.calls) && repo.rows == old(repo.rows)
          && cache.calls == old(cache.calls) + [GetCall(key)]
          && cache.entries == old(cache.entries) && cache.writeFaults == faults
        else
          var record := NewRecord(newId, city, country, reply.value, now);
          var saveErr := old(repo.SaveError(record));
          && api.calls == old(api.calls) + [(city, country)]
          && repo.calls == old(repo.calls) + [SaveCall(record)]
          && (saveErr.Some? ==>
                && r == Err(saveErr.value)
                && repo.rows == old(repo.rows)
                && cache.calls == old(cache.calls) + [GetCall(key)]
                && cache.entries == old(cache.entries) && cache.writeFaults == faults)
          && (saveErr.None? ==>
                var writes := FetchCacheWrites(key, record, faults);
                && r == Ok(Some(record))
                && repo.rows == old(repo.rows)[newId := record]
                && cache.calls == old(cache.calls) + [GetCall(key)] + writes
                && cache.entries == Replay(old(cache.entries), writes)
                && cache.writeFaults == Consume(faults, |writes|))
    {
      var key := CityKey(city, country);
      var hit := cache.Get(key);
      if hit.Ok? {
        return Ok(hit.value);
      }
      var reply := api.FetchWeatherData(city, country);
      if reply.Err? {
        return Err(reply.error);
      }
      var record := NewRecord(newId, city, country, reply.value, now);
      var saveErr := repo.Save(record);
      if saveErr.Some? {
        return Err(saveErr.value);
      }
      WarmCache(key, record);
      r := Ok(Some(record));
    }

    /** The cache writes after a stored fetch, in order; their errors are only
        logged. */
    method WarmCache(key: string, record: Weather)
      modifies cache`entries, cache`writeFaults, cache`calls
      ensures var writes := FetchCacheWrites(key, record, old(cache.writeFaults));
        && cache.calls == old(cache.calls) + writes
        && cache.entries == Replay(old(cache.entries), writes)
        && cache.writeFaults == Consume(old(cache.writeFaults), |writes|)
    {
      ghost var entries0 := cache.entries;
      ghost var faults := cache.writeFaults;
      var setErr := cache.Set(key, record);
      ConsumeShifts(faults, 1, 0);
      var idSetErr := cache.Set(record.id, record);
      ConsumeTwice(faults, 1, 1);
      ReplayTwo(entries0, SetCall(key, record, setErr.Some?), SetCall(record.id, record, idSetErr.Some?));
    }

    /** The latest record of a city, exactly as the repository answers. */
    method GetLatestWeatherByCity(city: string) returns (r: Result<Weather>)
      requires repo.Valid()
      modifies repo`calls
      ensures FindLatestOp in repo.failing ==> r == Err(StorageFailure)
      ensures FindLatestOp !in repo.failing && !HasCity(repo.rows, city) ==> r == Err(RecordNotFound)
      ensures FindLatestOp !in repo.failing && HasCity(repo.rows, city) ==> r.Ok? && IsLatest(repo.rows, city, r.value)
      ensures repo.calls == old(repo.calls) + [FindLatestByCityCall(city)]
    {
      r := repo.FindLatestByCity(city);
    }

    /** Every stored record, exactly as the repository answers. */
    method GetAllWeather() returns (r: Result<seq<Weather>>)
      requires repo.Valid()
      modifies repo`calls
      ensures FindAllOp in repo.failing ==> r == Err(StorageFailure)
      ensures FindAllOp !in repo.failing ==> r.Ok? && IsListing(repo.rows, r.value)
      ensures repo.calls == old(repo.calls) + [FindAllCall]
    {
      r := repo.FindAll();
    }

    /** A non-null cached value under the ID is returned without asking the
        repository. Otherwise the repository answers: its error is returned
        unchanged, and a found record is cached under the ID (a failed write is
        ignored) and returned. */
    method GetWeatherByID(id: string) returns (r: Result<Weather>)
      modifies repo`calls, cache`entries, cache`writeFaults, cache`calls
      ensures var hit := old(cache.GetResult(id));
        var found := repo.FindByIDResult(id);
        var faults := old(cache.writeFaults);
        if hit.Ok? && hit.value.Some? then
          && r == Ok(hit.value.value)
          && repo.calls == old(repo.calls)
          && cache.calls == old(cache.calls) + [GetCall(id)]
          && cache.entries == old(cache.entries) && cache.writeFaults == faults
        else
          && r == found
          && repo.calls == old(repo.calls) + [FindByIDCall(id)]
          && (found.Err? ==>
                && cache.calls == old(cache.calls) + [GetCall(id)]
                && cache.entries == old(cache.entries) && cache.writeFaults == faults)
          && (found.Ok? ==>
                var write := SetCall(id, found.value, WriteFails(faults, 0));
                && cache.calls == old(cache.calls) + [GetCall(id), write]
                && cache.entries == Step(old(cache.entries), write)
                && cache.writeFaults == Consume(faults, 1))
    {
      var hit := cache.Get(id);
      if hit.Ok? && hit.value.Some? {
        return Ok(hit.value.value);
      }
      var found := repo.FindByID(id);
      if found.Err? {
        return Err(found.error);
      }
      var setErr := cache.Set(id, found.value);
      r := Ok(found.value);
    }

    /** Loads the record, applies the partial update with the clock `now`, and
        writes it back; a load or write failure is returned before the cache is
        touched. After a successful write the ID key is refreshed, the old
        city/country key is evicted exactly when the location changed, the new
        city/country key is written, and the merged record is returned whatever
        the cache answered. */
    method UpdateWeather(id: string, update: Weather, now: Time) returns (r: Result<Weather>)
      requires repo.Valid()
      modifies repo`rows, repo`calls, cache`entries, cache`writeFaults, cache`calls
      ensures repo.Valid()
      ensures var found := old(repo.FindByIDResult(id));
        var faults := old(cache.writeFaults);
        if found.Err? then
          && r == Err(found.error)
          && repo.calls == old(repo.calls) + [FindByIDCall(id)]
          && repo.rows == old(repo.rows)
          && cache.calls == old(cache.calls) && cache.entries == old(cache.entries)
          && cache.writeFaults == faults
        else
          var merged := Merge(found.value, update, now);
          && repo.calls == old(repo.calls) + [FindByIDCall(id), UpdateCall(merged)]
          && (UpdateOp in repo.failing ==>
                && r == Err(StorageFailure)
                && repo.rows == old(repo.rows)
                && cache.calls == old(cache.calls) && cache.entries == old(cache.entries)
                && cache.writeFaults == faults)
          && (UpdateOp !in repo.failing ==>
                var writes := UpdateCacheCalls(id, found.value, merged, faults);
                && r == Ok(merged)
                && repo.rows == old(repo.rows)[id := merged]
                && cache.calls == old(cache.calls) + writes
                && cache.entries == Replay(old(cache.entries), writes)
                && cache.writeFaults == Consume(faults, |writes|))
    {
      var found := repo.FindByID(id);
      if found.Err? {
        return Err(found.error);
      }
      var existing := ApplyUpdate(found.value, update, now);
      var updErr := repo.Update(existing);
      if updErr.Some? {
        return Err(updErr.value);
      }
      RefreshCache(id, found.value, existing);
      r := Ok(existing);
    }

    /** The cache writes after a stored update, in order; their errors are only
        logged. */
    method RefreshCache(id: string, before: Weather, after: Weather)
      modifies cache`entries, cache`writeFaults, cache`calls
      ensures var writes := UpdateCacheCalls(id, before, after, old(cache.writeFaults));
        && cache.calls == old(cache.calls) + writes
        && cache.entries == Replay(old(cache.entries), writes)
        && cache.writeFaults == Consume(old(cache.writeFaults), |writes|)
    {
      ghost var entries0 := cache.entries;
      ghost var faults := cache.writeFaults;
      var idErr := cache.Set(id, after);
      ConsumeShifts(faults, 1, 0);
      var newKey := CityKey(after.city, after.country);
      if before.city != after.city || before.country != after.country {
        var oldKey := CityKey(before.city, before.country);
        var delErr := cache.Delete([oldKey]);
        ConsumeTwice(faults, 1, 1);
        ConsumeShifts(faults, 2, 0);
        var newErr := cache.Set(newKey, after);
        ConsumeTwice(faults, 2, 1);
        ReplayThree(entries0, SetCall(id, after, idErr.Some?), DelCall([oldKey], delErr.Some?), SetCall(newKey, after, newErr.Some?));
        assert UpdateCacheCalls(id, before, after, faults) ==
          [SetCall(id, after, idErr.Some?), DelCall([oldKey], delErr.Some?), SetCall(newKey, after, newErr.Some?)];
      } else {
        var newErr := cache.Set(newKey, after);
        ConsumeTwice(faults, 1, 1);
        ReplayTwo(entries0, SetCall(id, after, idErr.Some?), SetCall(newKey, after, newErr.Some?));
        assert UpdateCacheCalls(id, before, after, faults) ==
          [SetCall(id, after, idErr.Some?), SetCall(newKey, after, newErr.Some?)];
      }
    }

    /** Loads the record (a failure here is tolerated) to learn its
        city/country key, then deletes the row; a delete failure is returned
        before the cache is touched. Afterwards the ID key is evicted, and the
        city/country key when the load succeeded; cache failures never change
        the successful result. */
    method DeleteWeather(id: string) returns (err: Option<Error>)
      requires repo.Valid()
      modifies repo`rows, repo`calls, cache`entries, cache`writeFaults, cache`calls
      ensures repo.Valid()
      ensures var found := old(repo.FindByIDResult(id));
        var loaded := if found.Ok? then Some(found.value) else None;
        var faults := old(cache.writeFaults);
        && repo.calls == old(repo.calls) + [FindByIDCall(id), DeleteCall(id)]
        && (DeleteOp in repo.failing ==>
              && err == Some(StorageFailure)
              && repo.rows == old(repo.rows)
              && cache.calls == old(cache.calls) && cache.entries == old(cache.entries)
              && cache.writeFaults == faults)
        && (DeleteOp !in repo.failing ==>
              var writes := DeleteCacheCalls(id, loaded, faults);
              && err == None
              && repo.rows == old(repo.rows) - {id}
              && cache.calls == old(cache.calls) + writes
              && cache.entries == Replay(old(cache.entries), writes)
              && cache.writeFaults == Consume(faults, |writes|))
    {
      var loaded: Option<Weather> := None;
      var found := repo.FindByID(id);
      if found.Ok? {
        loaded := Some(found.value);
      }
      var delErr := repo.Delete(id);
      if delErr.Some? {
        return delErr;
      }
      EvictCache(id, loaded);
      err := None;
    }

    /** The cache evictions after a stored delete, in order; their errors are
        only logged. */
    method EvictCache(id: string, loaded: Option<Weather>)
      modifies cache`entries, cache`writeFaults, cache`calls
      ensures var writes := DeleteCacheCalls(id, loaded, old(cache.writeFaults));
        && cache.calls == old(cache.calls) + writes
        && cache.entries == Replay(old(cache.entries), writes)
        && cache.writeFaults == Consume(old(cache.writeFaults), |writes|)
    {
      ghost var entries0 := cache.entries;
      ghost var faults := cache.writeFaults;
      var idErr := cache.Delete([id]);
      ReplaySnoc(entries0, [], DelCall([id], idErr.Some?));
      ghost var trace: seq<CacheCall> := [DelCall([id], idErr.Some?)];
      if loaded.Some? {
        var ccKey := CityKey(loaded.value.city, loaded.value.country);
        ConsumeShifts(faults, 1, 0);
        var ccErr := cache.Delete([ccKey]);
        ReplaySnoc(entries0, trace, DelCall([ccKey], ccErr.Some?));
        trace := trace + [DelCall([ccKey], ccErr.Some?)];
        ConsumeTwice(faults, 1, 1);
      }
      assert trace == DeleteCacheCalls(id, loaded, faults);
    }
  }

  /** Two calls replayed are two steps. */
  lemma ReplayTwo(entries: map<string, Option<Weather>>, c0: CacheCall, c1: CacheCall)
    ensures Replay(entries, [c0, c1]) == Step(Step(entries, c0), c1)
  {
    ReplaySnoc(entries, [c0], c1);
    ReplaySnoc(entries, [], c0);
    assert [c0] + [c1] == [c0, c1];
  }

  /** Three calls replayed are three steps. */
  lemma ReplayThree(entries: map<string, Option<Weather>>, c0: CacheCall, c1: CacheCall, c2: CacheCall)
    ensures Replay(entries, [c0, c1, c2]) == Step(Step(Step(entries, c0), c1), c2)
  {
    ReplaySnoc(entries, [c0, c1], c2);
    ReplayTwo(entries, c0, c1);
    assert [c0, c1] + [c2] == [c0, c1, c2];
  }

  /** A fetch that stored a record leaves it under each of its two keys whose
      write succeeded, whatever happened to the other write; a key whose write
      failed keeps what it held (unless the two keys coincide). */
  lemma {:induction false} FetchWarmsBothKeys(entries: map<string, Option<Weather>>, faults: seq<bool>, key: string, record: Weather)
    ensures var after := Replay(entries, FetchCacheWrites(key, record, faults));
      && (!WriteFails(faults, 0) ==> key in after && after[key] == Some(record))
      && (!WriteFails(faults, 1) ==> record.id in after && after[record.id] == Some(record))
      && (WriteFails(faults, 0) && key != record.id ==> SameAt(entries, after, key))
      && (WriteFails(faults, 1) && key != record.id ==> SameAt(entries, after, record.id))
  {
    var calls := FetchCacheWrites(key, record, faults);
    ReplayTwo(entries, calls[0], calls[1]);
  }

  /** After a successful update, the ID key holds the merged record when its
      write succeeded and is untouched otherwise; the new city/country key holds
      the merged record when its write succeeded; and when the location moved
      the old city/country key is gone if its eviction succeeded and untouched
      otherwise. Each write's outcome matters only to its own key. The ID must
      not itself look like a weather key (a UUID's text never does). */
  lemma {:induction false} UpdateLeavesCacheConsistent(entries: map<string, Option<Weather>>, faults: seq<bool>,
                                                       id: string, before: Weather, after: Weather)
    requires !(WeatherKeyPrefix <= id)
    ensures var result := Replay(entries, UpdateCacheCalls(id, before, after, faults));
      var oldKey := CityKey(before.city, before.country);
      var newKey := CityKey(after.city, after.country);
      var moved := before.city != after.city || before.country != after.country;
      var last := if moved then 2 else 1;
      && (!WriteFails(faults, 0) ==> id in result && result[id] == Some(after))
      && (WriteFails(faults, 0) ==> SameAt(entries, result, id))
      && (!WriteFails(faults, last) ==> newKey in result && result[newKey] == Some(after))
      && (moved && oldKey != newKey && !WriteFails(faults, 1) ==> oldKey !in result)
      && (moved && oldKey != newKey && WriteFails(faults, 1) ==> SameAt(entries, result, oldKey))
  {
    var oldKey := CityKey(before.city, before.country);
    var newKey := CityKey(after.city, after.country);
    assert id != oldKey by {
      assert oldKey[..|WeatherKeyPrefix|] == WeatherKeyPrefix;
    }
    assert id != newKey by {
      assert newKey[..|WeatherKeyPrefix|] == WeatherKeyPrefix;
    }
    var calls := UpdateCacheCalls(id, before, after, faults);
    if |calls| == 3 {
      ReplayThree(entries, calls[0], calls[1], calls[2]);
      assert calls == [calls[0], calls[1], calls[2]];
    } else {
      ReplayTwo(entries, calls[0], calls[1]);
      assert calls == [calls[0], calls[1]];
    }
  }

  /** After a successful delete, the ID key is gone when its eviction
      succeeded, and so is the loaded record's city/country key when its
      eviction succeeded; nothing is added or changed, and when every eviction
      failed the cache is as it was. */
  lemma {:induction false} DeleteEvictsKeys(entries: map<string, Option<Weather>>, faults: seq<bool>,
                                            id: string, loaded: Option<Weather>)
    ensures var result := Replay(entries, DeleteCacheCalls(id, loaded, faults));
      && (!WriteFails(faults, 0) ==> id !in result)
      && (loaded.Some? && !WriteFails(faults, 1) ==> CityKey(loaded.value.city, loaded.value.country) !in result)
      && (forall k :: k in result ==> k in entries && result[k] == entries[k])
      && (WriteFails(faults, 0) && (loaded.None? || WriteFails(faults, 1)) ==> result == entries)
  {
    var calls := DeleteCacheCalls(id, loaded, faults);
    if loaded.Some? {
      ReplayTwo(entries, calls[0], calls[1]);
      assert calls == [calls[0], calls[1]];
    } else {
      ReplaySnoc(entries, [], calls[0]);
      assert calls == [] + [calls[0]];
    }
  }

  /** An update touches the old city/country key exactly when it sets a city or
      a country that differs from the stored one. */
  lemma EvictsExactlyWhenMoved(id: string, existing: Weather, update: Weather, now: Time, faults: seq<bool>)
    ensures var calls := UpdateCacheCalls(id, existing, Merge(existing, update, now), faults);
      (|calls| == 3) <==>
      ((update.city != "" && update.city != existing.city) ||
       (update.country != "" && update.country != existing.country))
    ensures var calls := UpdateCacheCalls(id, existing, Merge(existing, update, now), faults);
      |calls| == 3 ==> calls[1] == DelCall([CityKey(existing.city, existing.country)], WriteFails(faults, 1))
  {
    MergeMovesLocation(existing, update, now);
  }
}
