/** The repository's row type and the two field-copying conversions between it
    and the domain record. */
module WeatherMapper {
  import opened Domain

  /** A row of the `weather` table. */
  datatype WeatherModel = WeatherModel(
    id: string,
    city: string,
    country: string,
    temperature: real,
    description: string,
    humidity: int,
    windSpeed: real,
    fetchedAt: Time,
    createdAt: Time,
    updatedAt: Time)

  /** The name of the table rows are stored in. */
  const TableName: string := "weather"

  /** The row for a domain record: every field copied, none defaulted. */
  function ToDBModel(w: Weather): (m: WeatherModel)
    ensures m.id == w.id && m.city == w.city && m.country == w.country
    ensures m.temperature == w.temperature && m.description == w.description
    ensures m.humidity == w.humidity && m.windSpeed == w.windSpeed
    ensures m.fetchedAt == w.fetchedAt && m.createdAt == w.createdAt && m.updatedAt == w.updatedAt
  {
    WeatherModel(w.id, w.city, w.country, w.temperature, w.description,
                 w.humidity, w.windSpeed, w.fetchedAt, w.createdAt, w.updatedAt)
  }

  /** The domain record for a row: every field copied, none defaulted. */
  function ToDomainModel(m: WeatherModel): (w: Weather)
    ensures w.id == m.id && w.city == m.city && w.country == m.country
    ensures w.temperature == m.temperature && w.description == m.description
    ensures w.humidity == m.humidity && w.windSpeed == m.windSpeed
    ensures w.fetchedAt == m.fetchedAt && w.createdAt == m.createdAt && w.updatedAt == m.updatedAt
  {
    Weather(m.id, m.city, m.country, m.temperature, m.description,
            m.humidity, m.windSpeed, m.fetchedAt, m.createdAt, m.updatedAt)
  }

  /** Storing a record and reading it back gives the same record. */
  lemma DomainRoundTrip(w: Weather)
    ensures ToDomainModel(ToDBModel(w)) == w
  {
  }

  /** Reading a row and storing it back gives the same row. */
  lemma RowRoundTrip(m: WeatherModel)
    ensures ToDBModel(ToDomainModel(m)) == m
  {
  }

  /** Distinct records map to distinct rows, so no information is lost. */
  lemma ToDBModelInjective(a: Weather, b: Weather)
    requires ToDBModel(a) == ToDBModel(b)
    ensures a == b
  {
    DomainRoundTrip(a);
    DomainRoundTrip(b);
  }
}
