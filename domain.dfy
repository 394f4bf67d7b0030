/** The weather record, the API client's reading, and the partial-update merge
    that both weather services apply. */
module Domain {

  /** An instant, in nanoseconds relative to the Unix epoch (Go's `time.Time`
      without a location or a monotonic reading). */
  type Time = int

  /** A span of time in nanoseconds (Go's `time.Duration`). */
  type Duration = int

  const Second: Duration := 1_000_000_000
  const Minute: Duration := 60 * Second
  const Hour: Duration := 60 * Minute

  /** Go's zero `time.Time` (January 1 of year 1, UTC): 62135596800 seconds before the epoch. */
  const ZeroTime: Time := -62135596800 * Second

  /** The text of the nil UUID, `uuid.Nil.String()`. */
  const NilId: string := "00000000-0000-0000-0000-000000000000"

  /** `time.Unix(sec, 0)`. */
  function UnixSeconds(sec: int): Time
  {
    sec * Second
  }

  /** A stored weather record (`weather.Weather`). The ID is the text of its UUID,
      which is also the record's identity cache key. */
  datatype Weather = Weather(
    id: string,
    city: string,
    country: string,
    temperature: real,
    description: string,
    humidity: int,
    windSpeed: real,
    fetchedAt: Time,
    createdAt: Time,
    updatedAt: Time)

  /** The zero value of `weather.Weather`. */
  const ZeroWeather: Weather := Weather(NilId, "", "", 0.0, "", 0, 0.0, ZeroTime, ZeroTime, ZeroTime)

  /** What the weather API client returns (`interfaces.WeatherAPIResponse`). */
  datatype Reading = Reading(
    temperature: real,
    description: string,
    humidity: int,
    windSpeed: real,
    fetchedAt: Time)

  /** The record a fetch builds: the requested location, the reading's
      measurements and provider time, and the clock for both lifecycle stamps. */
  function NewRecord(id: string, city: string, country: string, reading: Reading, now: Time): (w: Weather)
    ensures w.id == id && w.city == city && w.country == country
    ensures w.temperature == reading.temperature && w.description == reading.description
    ensures w.humidity == reading.humidity && w.windSpeed == reading.windSpeed
    ensures w.fetchedAt == reading.fetchedAt
    ensures w.createdAt == now && w.updatedAt == now
  {
    Weather(id, city, country, reading.temperature, reading.description,
            reading.humidity, reading.windSpeed, reading.fetchedAt, now, now)
  }

  /** The partial update both services apply to a loaded record: a field of
      `update` overwrites only when it is not the zero value ("" or 0), and the
      update time comes from the clock. ID, fetch and creation times never change. */
  function Merge(existing: Weather, update: Weather, now: Time): Weather
  {
    existing.(
      city := if update.city != "" then update.city else existing.city,
      country := if update.country != "" then update.country else existing.country,
      temperature := if update.temperature != 0.0 then update.temperature else existing.temperature,
      description := if update.description != "" then update.description else existing.description,
      humidity := if update.humidity != 0 then update.humidity else existing.humidity,
      windSpeed := if update.windSpeed != 0.0 then update.windSpeed else existing.windSpeed,
      updatedAt := now)
  }

  /** The field-by-field overwrite both services run on the loaded record. */
  method ApplyUpdate(existing: Weather, update: Weather, now: Time) returns (m: Weather)
    ensures m == Merge(existing, update, now)
  {
    m := existing;
    if update.city != "" {
      m := m.(city := update.city);
    }
    if update.country != "" {
      m := m.(country := update.country);
    }
    if update.temperature != 0.0 {
      m := m.(temperature := update.temperature);
    }
    if update.description != "" {
      m := m.(description := update.description);
    }
    if update.humidity != 0 {
      m := m.(humidity := update.humidity);
    }
    if update.windSpeed != 0.0 {
      m := m.(windSpeed := update.windSpeed);
    }
    m := m.(updatedAt := now);
  }

  /** An update whose every mutable field is the zero value. */
  predicate IsBlankUpdate(update: Weather)
  {
    update.city == "" && update.country == "" && update.temperature == 0.0 &&
    update.description == "" && update.humidity == 0 && update.windSpeed == 0.0
  }

  /** Each mutable field ends up as the update's value when that value is set,
      and as the existing value otherwise; identity and provider/creation times
      are kept; the update time is the clock's. */
  lemma MergeFields(existing: Weather, update: Weather, now: Time)
    ensures var m := Merge(existing, update, now);
      && (m.city == update.city || (update.city == "" && m.city == existing.city))
      && (m.country == update.country || (update.country == "" && m.country == existing.country))
      && (m.temperature == update.temperature || (update.temperature == 0.0 && m.temperature == existing.temperature))
      && (m.description == update.description || (update.description == "" && m.description == existing.description))
      && (m.humidity == update.humidity || (update.humidity == 0 && m.humidity == existing.humidity))
      && (m.windSpeed == update.windSpeed || (update.windSpeed == 0.0 && m.windSpeed == existing.windSpeed))
      && m.id == existing.id && m.fetchedAt == existing.fetchedAt && m.createdAt == existing.createdAt
      && m.updatedAt == now
  {
  }

  /** A blank update only moves the update time. */
  lemma BlankUpdateTouchesOnlyUpdatedAt(existing: Weather, update: Weather, now: Time)
    requires IsBlankUpdate(update)
    ensures Merge(existing, update, now) == existing.(updatedAt := now)
  {
  }

  /** Applying the same update twice is the same as applying it once. */
  lemma MergeIdempotent(existing: Weather, update: Weather, now: Time)
    ensures Merge(Merge(existing, update, now), update, now) == Merge(existing, update, now)
  {
  }

  /** "Zero means unset": no update can clear a field. A merged field is empty or
      zero only if it already was. */
  lemma MergeCannotClear(existing: Weather, update: Weather, now: Time)
    ensures var m := Merge(existing, update, now);
      && (m.city == "" ==> existing.city == "")
      && (m.country == "" ==> existing.country == "")
      && (m.description == "" ==> existing.description == "")
      && (m.humidity == 0 ==> existing.humidity == 0)
      && (m.temperature == 0.0 ==> existing.temperature == 0.0)
      && (m.windSpeed == 0.0 ==> existing.windSpeed == 0.0)
  {
  }

  /** The merged location differs from the old one exactly when the update sets
      a city or country that differs from the stored one. */
  lemma MergeMovesLocation(existing: Weather, update: Weather, now: Time)
    ensures var m := Merge(existing, update, now);
      (m.city != existing.city || m.country != existing.country) <==>
      ((update.city != "" && update.city != existing.city) ||
       (update.country != "" && update.country != existing.country))
  {
  }
}
