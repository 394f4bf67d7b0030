/** The weather-specific cache wrapper: key construction, caching a record under
    its city/country key and its city's "latest" key, lookups, invalidation and
    the listing of cached cities. */
module WeatherCache {
  import opened Wrappers
  import opened Domain
  import opened Collaborators
  import Strs

  const WeatherKeyPrefix: string := "weather:"
  const CityPrefix: string := "city:"
  const LatestPrefix: string := "latest:"

  /** The key pattern (without its trailing `*`) that `GetCachedCities` lists. */
  const CityPattern: string := WeatherKeyPrefix + CityPrefix

  /** The city/country key; the weather service builds the same composite key. */
  function CityKey(city: string, country: string): string
  {
    WeatherKeyPrefix + city + ":" + country
  }

  /** The key of the latest record for a city. */
  function LatestCityKey(city: string): string
  {
    WeatherKeyPrefix + LatestPrefix + city
  }

  /** Recovers city and country from a city/country key, splitting at the first
      `:` after the prefix. */
  function ParseCityKey(key: string): (r: Option<(string, string)>)
    ensures r.Some? ==> CityKey(r.value.0, r.value.1) == key
  {
    if WeatherKeyPrefix <= key then
      var parts := Strs.SplitFirst(key[|WeatherKeyPrefix|..], ':');
      if |parts| == 2 then
        assert key == WeatherKeyPrefix + key[|WeatherKeyPrefix|..];
        Some((parts[0], parts[1]))
      else None
    else None
  }

  /** A city without `:` is recovered, with its country, from its key. */
  lemma ParseCityKeyRoundTrip(city: string, country: string)
    requires ':' !in city
    ensures ParseCityKey(CityKey(city, country)) == Some((city, country))
  {
    var key := CityKey(city, country);
    assert key[|WeatherKeyPrefix|..] == city + [':'] + country;
    var parts := Strs.SplitFirst(city + [':'] + country, ':');
    assert |parts| == 2;
    assert parts[0] + [':'] + parts[1] == city + [':'] + country;
    Strs.FirstSeparatorUnique(parts[0], parts[1], city, country, ':');
  }

  /** Keys are unambiguous as long as cities contain no `:`. */
  lemma CityKeyInjective(c1: string, k1: string, c2: string, k2: string)
    requires ':' !in c1 && ':' !in c2
    requires CityKey(c1, k1) == CityKey(c2, k2)
    ensures c1 == c2 && k1 == k2
  {
    ParseCityKeyRoundTrip(c1, k1);
    ParseCityKeyRoundTrip(c2, k2);
  }

  /** Keys are not injective in general: the city/country key of the city
      "latest" is the latest-record key of the country. */
  lemma LatestKeyCollision(x: string)
    ensures CityKey("latest", x) == LatestCityKey(x)
  {
  }

  /** The listing pattern `weather:city:*` matches a city/country key only when
      the city is "city" or begins with "city:", so ordinary cached records are
      never listed by `GetCachedCities`. */
  lemma CityPatternMatchesOnlyCityNamedCity(city: string, country: string)
    ensures CityPattern <= CityKey(city, country) <==> city == "city" || CityPrefix <= city
  {
    var key := CityKey(city, country);
    var tail := city + ":" + country;
    assert key == WeatherKeyPrefix + tail;
    PrefixCancel(WeatherKeyPrefix, CityPrefix, tail);
    if CityPrefix <= tail {
      if |city| < |CityPrefix| {
        assert CityPrefix[|city|] == tail[|city|] == ':';
        assert |city| == 4;
        assert city == tail[..4];
      } else {
        assert city[..|CityPrefix|] == tail[..|CityPrefix|];
      }
    }
  }

  /** A common prefix does not change whether one string starts another. */
  lemma PrefixCancel(p: string, x: string, y: string)
    ensures p + x <= p + y <==> x <= y
  {
    if p + x <= p + y {
      assert x == (p + x)[|p|..] == (p + y)[|p|..|p| + |x|] == y[..|x|];
    }
    if x <= y {
      assert p + y == (p + x) + y[|x|..];
    }
  }

  /** The weather cache over a key-value store. */
  class WeatherCache {
    const store: Cache

    constructor (store: Cache)
      ensures this.store == store
    {
      this.store := store;
    }

    /** Caches `w` under its city/country key and, if that worked, under its
        city's latest key. Only the first write can fail the call: a failed
        latest-key write is only logged, and the city/country key keeps `w`. */
    method CacheWeather(w: Weather) returns (err: Option<Error>)
      modifies store`entries, store`writeFaults, store`calls
      ensures var cityKey := CityKey(w.city, w.country);
        var latestKey := LatestCityKey(w.city);
        var faults := old(store.writeFaults);
        if WriteFails(faults, 0) then
          && err == Some(Wrapped("failed to cache weather by city/country", CacheFailure))
          && store.entries == old(store.entries)
          && store.writeFaults == Consume(faults, 1)
          && store.calls == old(store.calls) + [SetCall(cityKey, w, true)]
        else if WriteFails(faults, 1) then
          && err == None
          && store.entries == old(store.entries)[cityKey := Some(w)]
          && store.writeFaults == Consume(faults, 2)
          && store.calls == old(store.calls) + [SetCall(cityKey, w, false), SetCall(latestKey, w, true)]
        else
          && err == None
          && store.entries == old(store.entries)[cityKey := Some(w)][latestKey := Some(w)]
          && store.writeFaults == Consume(faults, 2)
          && store.calls == old(store.calls) + [SetCall(cityKey, w, false), SetCall(latestKey, w, false)]
    {
      var cityKey := CityKey(w.city, w.country);
      var setErr := store.Set(cityKey, w);
      if setErr.Some? {
        return Some(Wrapped("failed to cache weather by city/country", setErr.value));
      }
      var latestKey := LatestCityKey(w.city);
      var latestErr := store.Set(latestKey, w);
      assert latestErr.Some? <==> WriteFails(old(store.writeFaults), 1);
      // the latest-key error is only logged
      err := None;
    }

    /** The record cached for a city/country. A stored JSON null decodes into
        the zero record. */
    method GetWeatherByCityCountry(city: string, country: string) returns (r: Result<Weather>)
      modifies store`calls
      ensures var key := CityKey(city, country);
        var got := store.GetResult(key);
        && (got.Err? ==> r == Err(Wrapped("cache miss for " + key, got.error)))
        && (got.Ok? ==> r == Ok(if got.value.Some? then got.value.value else ZeroWeather))
        && store.calls == old(store.calls) + [GetCall(key)]
    {
      var key := CityKey(city, country);
      var got := store.Get(key);
      if got.Err? {
        return Err(Wrapped("cache miss for " + key, got.error));
      }
      r := Ok(if got.value.Some? then got.value.value else ZeroWeather);
    }

    /** The record cached as the latest for a city. */
    method GetLatestWeatherByCity(city: string) returns (r: Result<Weather>)
      modifies store`calls
      ensures var key := LatestCityKey(city);
        var got := store.GetResult(key);
        && (got.Err? ==> r == Err(Wrapped("cache miss for latest weather in " + city, got.error)))
        && (got.Ok? ==> r == Ok(if got.value.Some? then got.value.value else ZeroWeather))
        && store.calls == old(store.calls) + [GetCall(key)]
    {
      var key := LatestCityKey(city);
      var got := store.Get(key);
      if got.Err? {
        return Err(Wrapped("cache miss for latest weather in " + city, got.error));
      }
      r := Ok(if got.value.Some? then got.value.value else ZeroWeather);
    }

    /** Deletes the city/country key and the city's latest key in one call. */
    method InvalidateWeather(city: string, country: string) returns (err: Option<Error>)
      modifies store`entries, store`writeFaults, store`calls
      ensures var keys := [CityKey(city, country), LatestCityKey(city)];
        var failed := WriteFails(old(store.writeFaults), 0);
        && store.calls == old(store.calls) + [DelCall(keys, failed)]
        && store.writeFaults == Consume(old(store.writeFaults), 1)
        && (failed ==>
              err == Some(Wrapped("failed to invalidate cache", CacheFailure)) &&
              store.entries == old(store.entries))
        && (!failed ==>
              err == None &&
              store.entries == old(store.entries) - {CityKey(city, country), LatestCityKey(city)})
    {
      var keys := [CityKey(city, country), LatestCityKey(city)];
      var delErr := store.Delete(keys);
      assert (set k | k in keys) == {CityKey(city, country), LatestCityKey(city)};
      if delErr.Some? {
        return Some(Wrapped("failed to invalidate cache", delErr.value));
      }
      err := None;
    }

    /** The cities under `weather:city:`: each listed key with that prefix cut off,
        once per key, in the order the store lists the keys. */
    method GetCachedCities() returns (r: Result<seq<string>>)
      modifies store`calls
      ensures store.calls == old(store.calls) + [KeysCall(CityPattern)]
      ensures KeysOp in store.failing <==> r.Err?
      ensures r.Err? ==> r.error == CacheFailure
      ensures r.Ok? ==> forall i :: 0 <= i < |r.value| ==> CityPattern + r.value[i] in store.entries
      ensures r.Ok? ==> forall k :: k in store.entries && CityPattern <= k ==> k[|CityPattern|..] in r.value
      ensures r.Ok? ==> forall i, j :: 0 <= i < j < |r.value| ==> r.value[i] != r.value[j]
    {
      var keys := store.Keys(CityPattern);
      if keys.Err? {
        return Err(keys.error);
      }
      var cities: seq<string> := [];
      var n := 0;
      while n < |keys.value|
        invariant 0 <= n <= |keys.value|
        invariant |cities| == n
        invariant forall i :: 0 <= i < n ==> keys.value[i] == CityPattern + cities[i]
      {
        var key := keys.value[n];
        assert key == CityPattern + key[|CityPattern|..];
        cities := cities + [key[|CityPattern|..]];
        n := n + 1;
      }
      forall k | k in store.entries && CityPattern <= k
        ensures k[|CityPattern|..] in cities
      {
        var i :| 0 <= i < |keys.value| && keys.value[i] == k;
        assert cities[i] == k[|CityPattern|..];
      }
      r := Ok(cities);
    }
  }
}
