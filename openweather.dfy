/** The OpenWeather client: the request URL it builds and how it turns the
    decoded JSON reply into a reading. The HTTP round trip itself is a
    parameter. */
module OpenWeather {
  import opened Wrappers
  import opened Domain
  import Strs

  const BaseUrl: string := "https://api.openweathermap.org/data/2.5/weather?q="
  const AppIdParam: string := "&appid="
  const UnitsParam: string := "&units=metric"

  /** The request timeout every client is built with. */
  const TimeoutSeconds: int := 5

  /** The error for a reply without a `weather` entry. */
  const MissingDescription: Error := Message("invalid response: missing weather description")

  /** A client: its API key and the HTTP timeout it was built with. */
  datatype Client = Client(apiKey: string, timeout: Duration)

  /** The decoded reply: `main.temp`, `main.humidity`, the descriptions of the
      `weather` list in order, `wind.speed` and `dt` in Unix seconds. */
  datatype ApiResponse = ApiResponse(
    temp: real,
    humidity: int,
    descriptions: seq<string>,
    windSpeed: real,
    dt: int)

  function NewClient(apiKey: string): (c: Client)
    ensures c.apiKey == apiKey && c.timeout == TimeoutSeconds * Second
  {
    Client(apiKey, TimeoutSeconds * Second)
  }

  /** The request URL; city, country and key are inserted without escaping. */
  function RequestUrl(city: string, country: string, apiKey: string): string
  {
    BaseUrl + city + "," + country + AppIdParam + apiKey + UnitsParam
  }

  /** The reading for a reply: a transport failure is wrapped, a reply with an
      empty `weather` list is refused, and otherwise the measurements are copied,
      the description is the first entry's and the time is `dt` seconds after
      the epoch. */
  function ToReading(transport: Result<ApiResponse>): (r: Result<Reading>)
    ensures r.Ok? <==> transport.Ok? && |transport.value.descriptions| > 0
    ensures transport.Err? ==> r == Err(Wrapped("failed to call weather API", transport.error))
    ensures transport.Ok? && |transport.value.descriptions| == 0 ==> r == Err(MissingDescription)
    ensures r.Ok? ==>
      var res := transport.value;
      && r.value.temperature == res.temp && r.value.humidity == res.humidity
      && r.value.windSpeed == res.windSpeed && r.value.description == res.descriptions[0]
      && r.value.fetchedAt == UnixSeconds(res.dt)
  {
    match transport
    case Err(e) => Err(Wrapped("failed to call weather API", e))
    case Ok(res) =>
      if |res.descriptions| == 0 then Err(MissingDescription)
      else Ok(Reading(res.temp, res.descriptions[0], res.humidity, res.windSpeed, UnixSeconds(res.dt)))
  }

  /** `FetchWeatherData`: `get` performs the HTTP GET and decodes the reply. */
  function FetchWeatherData(c: Client, city: string, country: string, get: string -> Result<ApiResponse>): Result<Reading>
  {
    ToReading(get(RequestUrl(city, country, c.apiKey)))
  }

  /** The fetch time is exactly the reply's `dt`, in whole seconds. */
  lemma FetchedAtIsDt(res: ApiResponse)
    requires |res.descriptions| > 0
    ensures ToReading(Ok(res)).value.fetchedAt / Second == res.dt
    ensures ToReading(Ok(res)).value.fetchedAt % Second == 0
  {
  }

  /** Only the first description matters: later entries are ignored. */
  lemma LaterDescriptionsIgnored(res: ApiResponse, rest: seq<string>)
    requires |res.descriptions| > 0
    ensures ToReading(Ok(res.(descriptions := res.descriptions[..1] + rest))) == ToReading(Ok(res))
  {
  }

  /** Because nothing is escaped, a comma in the city can be moved into the
      country without changing the request. */
  lemma RequestUrlCollision(a: string, b: string, country: string, apiKey: string)
    ensures RequestUrl(a + "," + b, country, apiKey) == RequestUrl(a, b + "," + country, apiKey)
  {
  }

  /** So two locations can receive the same reply whatever the provider answers. */
  lemma FetchCollision(c: Client, a: string, b: string, country: string, get: string -> Result<ApiResponse>)
    ensures FetchWeatherData(c, a + "," + b, country, get) == FetchWeatherData(c, a, b + "," + country, get)
  {
    RequestUrlCollision(a, b, country, c.apiKey);
  }

  /** The URL as the base, the city, a comma, the country, an `&` and the rest. */
  lemma UrlShape(city: string, country: string, apiKey: string)
    ensures RequestUrl(city, country, apiKey)
         == BaseUrl + (city + [','] + (country + ['&'] + ("appid=" + apiKey + UnitsParam)))
  {
    assert AppIdParam == ['&'] + "appid=";
  }

  /** Without a comma in the city and an `&` in the country, the URL determines
      city, country and key. */
  lemma {:induction false} RequestUrlInjective(c1: string, k1: string, key1: string, c2: string, k2: string, key2: string)
    requires ',' !in c1 && ',' !in c2 && '&' !in k1 && '&' !in k2
    requires RequestUrl(c1, k1, key1) == RequestUrl(c2, k2, key2)
    ensures c1 == c2 && k1 == k2 && key1 == key2
  {
    var tail1 := "appid=" + key1 + UnitsParam;
    var tail2 := "appid=" + key2 + UnitsParam;
    var rest1 := k1 + ['&'] + tail1;
    var rest2 := k2 + ['&'] + tail2;
    var u1 := c1 + [','] + rest1;
    var u2 := c2 + [','] + rest2;
    UrlShape(c1, k1, key1);
    UrlShape(c2, k2, key2);
    assert u1 == (BaseUrl + u1)[|BaseUrl|..];
    assert u2 == (BaseUrl + u2)[|BaseUrl|..];
    Strs.FirstSeparatorUnique(c1, rest1, c2, rest2, ',');
    Strs.FirstSeparatorUnique(k1, tail1, k2, tail2, '&');
    assert key1 == tail1[6..|tail1| - |UnitsParam|];
    assert key2 == tail2[6..|tail2| - |UnitsParam|];
  }
}
