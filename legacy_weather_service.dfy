/** The earlier weather service without a cache: every read goes to the
    repository, and a fetch always asks the weather API. */
module LegacyWeatherService {
  import opened Wrappers
  import opened Domain
  import opened Collaborators

  /** The cache-less weather service over a repository and a weather API client. */
  class WeatherService {
    const repo: Repository
    const api: WeatherApi

    constructor (repo: Repository, api: WeatherApi)
      ensures this.repo == repo && this.api == api
    {
      this.repo := repo;
      this.api := api;
    }

    /** Asks the API; its error is returned and nothing is saved. Otherwise the
        record built from the reading, `newId` and the clock `now` is saved and,
        if the save worked, returned exactly as saved; a save error is returned. */
    method FetchAndStoreWeather(city: string, country: string, newId: string, now: Time)
      returns (r: Result<Weather>)
      requires repo.Valid()
      modifies repo`rows, repo`calls, api`calls
      ensures repo.Valid()
      ensures api.calls == old(api.calls) + [(city, country)]
      ensures var reply := api.replies(city, country);
        if reply.Err? then
          && r == Err(reply.error)
          && repo.calls == old(repo.calls) && repo.rows == old(repo.rows)
        else
          var record := NewRecord(newId, city, country, reply.value, now);
          var saveErr := old(repo.SaveError(record));
          && repo.calls == old(repo.calls) + [SaveCall(record)]
          && (saveErr.Some? ==> r == Err(saveErr.value) && repo.rows == old(repo.rows))
          && (saveErr.None? ==> r == Ok(record) && repo.rows == old(repo.rows)[newId := record])
    {
      var reply := api.FetchWeatherData(city, country);
      if reply.Err? {
        return Err(reply.error);
      }
      var entity := NewRecord(newId, city, country, reply.value, now);
      var saveErr := repo.Save(entity);
      if saveErr.Some? {
        return Err(saveErr.value);
      }
      r := Ok(entity);
    }

    /** The latest record of a city, exactly as the repository answers. */
    method GetLatestWeatherByCity(city: string) returns (r: Result<Weather>)
      requires repo.Valid()
      modifies repo`calls
      ensures FindLatestOp in repo.failing ==> r == Err(StorageFailure)
      ensures FindLatestOp !in repo.failing && !HasCity(repo.rows, city) ==> r == Err(RecordNotFound)
      ensures FindLatestOp !in repo.failing && HasCity(repo.rows, city) ==> r.Ok? && IsLatest(repo.rows, city, r.value)
      ensures repo.calls == old(repo.calls) + [FindLatestByCityCall(city)]
    {
      r := repo.FindLatestByCity(city);
    }

    /** Every stored record, exactly as the repository answers. */
    method GetAllWeather() returns (r: Result<seq<Weather>>)
      requires repo.Valid()
      modifies repo`calls
      ensures FindAllOp in repo.failing ==> r == Err(StorageFailure)
      ensures FindAllOp !in repo.failing ==> r.Ok? && IsListing(repo.rows, r.value)
      ensures repo.calls == old(repo.calls) + [FindAllCall]
    {
      r := repo.FindAll();
    }

    /** The record with this ID, exactly as the repository answers. */
    method GetWeatherByID(id: string) returns (r: Result<Weather>)
      modifies repo`calls
      ensures r == repo.FindByIDResult(id)
      ensures repo.calls == old(repo.calls) + [FindByIDCall(id)]
    {
      r := repo.FindByID(id);
    }

    /** Loads the record, applies the partial update with the clock `now` and
        writes it back; a load or write failure is returned, and on success the
        merged record is both stored and returned. */
    method UpdateWeather(id: string, update: Weather, now: Time) returns (r: Result<Weather>)
      requires repo.Valid()
      modifies repo`rows, repo`calls
      ensures repo.Valid()
      ensures var found := old(repo.FindByIDResult(id));
        if found.Err? then
          && r == Err(found.error)
          && repo.calls == old(repo.calls) + [FindByIDCall(id)]
          && repo.rows == old(repo.rows)
        else
          var merged := Merge(found.value, update, now);
          && repo.calls == old(repo.calls) + [FindByIDCall(id), UpdateCall(merged)]
          && (UpdateOp in repo.failing ==> r == Err(StorageFailure) && repo.rows == old(repo.rows))
          && (UpdateOp !in repo.failing ==> r == Ok(merged) && repo.rows == old(repo.rows)[id := merged])
    {
      var found := repo.FindByID(id);
      if found.Err? {
        return Err(found.error);
      }
      var existing := ApplyUpdate(found.value, update, now);
      var updErr := repo.Update(existing);
      if updErr.Some? {
        return Err(updErr.value);
      }
      r := Ok(existing);
    }

    /** Deletes the row, exactly as the repository answers. */
    method DeleteWeather(id: string) returns (err: Option<Error>)
      requires repo.Valid()
      modifies repo`rows, repo`calls
      ensures repo.Valid()
      ensures err == if DeleteOp in repo.failing then Some(StorageFailure) else None
      ensures repo.rows == if err.None? then old(repo.rows) - {id} else old(repo.rows)
      ensures repo.calls == old(repo.calls) + [DeleteCall(id)]
    {
      err := repo.Delete(id);
    }
  }
}
