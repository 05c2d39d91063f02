/**
 * The details page: a city's forecast reshaped into weather-history rows, a coin's 30-day
 * market chart reshaped into crypto-history rows by aligning three series on their index,
 * the loading and error flags around each fetch, and the five-row tables.
 * Dates are kept as millisecond timestamps; their locale text is not modelled.
 */
module Details {
  import opened Wrappers
  import opened Lists
  import opened JsNumber

  /** One forecast entry: `weather` holds the `main` texts of its weather array, when it has one. */
  datatype WeatherItem = WeatherItem(dt: int, temp: real, humidity: real, weather: Option<seq<string>>)

  datatype WeatherHistory = WeatherHistory(timestampMs: int, temperature: int, humidity: real, conditions: Option<string>)

  /** `item.weather?.[0]?.main`: missing when the array is missing or empty. */
  function FirstCondition(weather: Option<seq<string>>): (r: Option<string>)
    ensures r.Some? <==> weather.Some? && weather.value != []
    ensures r.Some? ==> r.value == weather.value[0]
  {
    match weather
    case None => None
    case Some(mains) => if mains == [] then None else Some(mains[0])
  }

  function ToWeatherHistory(item: WeatherItem): WeatherHistory {
    WeatherHistory(item.dt * 1000, JsRound(item.temp), item.humidity, FirstCondition(item.weather))
  }

  /** `data.list.map(...)`. */
  function WeatherRows(list: seq<WeatherItem>): seq<WeatherHistory> {
    seq(|list|, i requires 0 <= i < |list| => ToWeatherHistory(list[i]))
  }

  /**
   * One row per forecast entry, in order: the timestamp in milliseconds, the temperature
   * rounded to the nearest degree, the humidity as given, and the first condition if any.
   */
  lemma WeatherRowsSpec(list: seq<WeatherItem>)
    ensures |WeatherRows(list)| == |list|
    ensures forall i :: 0 <= i < |list| ==>
              && WeatherRows(list)[i].timestampMs == list[i].dt * 1000
              && list[i].temp - 1.0 / 2.0 < WeatherRows(list)[i].temperature as real <= list[i].temp + 1.0 / 2.0
              && WeatherRows(list)[i].humidity == list[i].humidity
              && WeatherRows(list)[i].conditions == FirstCondition(list[i].weather)
  {
  }

  /** A point of one of the market-chart series: `[timestamp, value]`. */
  type Point = (real, real)

  datatype CryptoHistory = CryptoHistory(timestampMs: real, price: real, volume: real, marketCap: real)

  /** The `map` callback for point `index`: reading past the end of the volume or cap series throws. */
  function CryptoRowAt(prices: seq<Point>, volumes: seq<Point>, caps: seq<Point>, index: nat): Option<CryptoHistory>
    requires index < |prices|
  {
    if index < |volumes| && index < |caps| then
      Some(CryptoHistory(prices[index].0, prices[index].1, volumes[index].1, caps[index].1))
    else None
  }

  /** `data.prices.map(([timestamp, price], index) => ...)`, fail-fast. */
  function CryptoRows(prices: seq<Point>, volumes: seq<Point>, caps: seq<Point>): Option<seq<CryptoHistory>> {
    var indices := seq(|prices|, i requires 0 <= i < |prices| => i);
    MapAll(indices, (index: int) => if 0 <= index < |prices| then CryptoRowAt(prices, volumes, caps, index) else None)
  }

  /**
   * The rows exist exactly when neither the volume nor the cap series is shorter than the
   * price series; then there is one row per price point, in order, each taking its volume and
   * cap from the same index.
   */
  lemma CryptoRowsSpec(prices: seq<Point>, volumes: seq<Point>, caps: seq<Point>)
    ensures CryptoRows(prices, volumes, caps).Some? <==> |prices| <= |volumes| && |prices| <= |caps|
    ensures CryptoRows(prices, volumes, caps).Some? ==>
              var rows := CryptoRows(prices, volumes, caps).value;
              |rows| == |prices| &&
              forall i :: 0 <= i < |prices| ==>
                rows[i] == CryptoHistory(prices[i].0, prices[i].1, volumes[i].1, caps[i].1)
  {
    if |prices| > 0 && !(|prices| <= |volumes| && |prices| <= |caps|) {
      var k := Min(|volumes|, |caps|);
      assert CryptoRowAt(prices, volumes, caps, k).None?;
      assert seq(|prices|, i requires 0 <= i < |prices| => i)[k] == k;
    }
  }

  /** A condition cell: a missing or empty condition (both falsy) shows "N/A". */
  function ConditionText(conditions: Option<string>): (r: string)
    ensures r == "N/A" <==> conditions.None? || conditions.value == "" || conditions.value == "N/A"
    ensures r != "N/A" ==> conditions == Some(r)
  {
    if conditions.None? || conditions.value == "" then "N/A" else conditions.value
  }

  /** `history.slice(0, 5)`, used by both tables. */
  function TableRows<T>(history: seq<T>): (r: seq<T>)
    ensures |r| == Min(5, |history|)
    ensures forall i :: 0 <= i < |r| ==> r[i] == history[i]
  {
    Take(history, 5)
  }

  /** How a forecast fetch ends. */
  datatype WeatherFetch =
    | HttpError(apiMessage: Option<string>)  // a non-OK response with the API's `message`, if any
    | Thrown(message: string)                // an error thrown on the way, with its message
    | Delivered(list: seq<WeatherItem>)

  /** The message recorded for a non-OK response; a missing or empty API message falls back. */
  function HttpErrorMessage(apiMessage: Option<string>): (r: string)
    ensures apiMessage.Some? && apiMessage.value != "" ==> r == "Weather API Error: " + apiMessage.value
    ensures apiMessage.None? || apiMessage.value == "" ==> r == "Weather API Error: Failed to fetch weather data"
  {
    "Weather API Error: " + (if apiMessage.None? || apiMessage.value == "" then "Failed to fetch weather data" else apiMessage.value)
  }

  /** How a market-chart fetch ends: the three series, or a failure before them. */
  datatype CryptoFetch = CryptoFailed | CryptoDelivered(prices: seq<Point>, volumes: seq<Point>, caps: seq<Point>)

  /** The page's data state. Both sections start loading, with no rows and no error. */
  class DetailsState {
    var weatherHistory: seq<WeatherHistory>
    var loadingWeather: bool
    var weatherError: Option<string>
    var cryptoHistory: seq<CryptoHistory>
    var loadingCrypto: bool

    constructor()
      ensures weatherHistory == [] && loadingWeather && weatherError == None
      ensures cryptoHistory == [] && loadingCrypto
    {
      weatherHistory := [];
      loadingWeather := true;
      weatherError := None;
      cryptoHistory := [];
      loadingCrypto := true;
    }

    /**
     * `fetchWeatherHistory`: the previous error is cleared first, a delivered forecast replaces
     * the rows, a failure records its message and keeps the rows, and loading always ends.
     */
    method FetchWeatherHistory(outcome: WeatherFetch)
      modifies this
      ensures !loadingWeather
      ensures outcome.Delivered? ==> weatherHistory == WeatherRows(outcome.list) && weatherError == None
      ensures outcome.HttpError? ==> weatherHistory == old(weatherHistory) && weatherError == Some(HttpErrorMessage(outcome.apiMessage))
      ensures outcome.Thrown? ==> weatherHistory == old(weatherHistory) && weatherError == Some(outcome.message)
      ensures cryptoHistory == old(cryptoHistory) && loadingCrypto == old(loadingCrypto)
    {
      loadingWeather := true;
      weatherError := None;
      match outcome {
        case HttpError(apiMessage) =>
          weatherError := Some(HttpErrorMessage(apiMessage));
        case Thrown(message) =>
          weatherError := Some(message);
        case Delivered(list) =>
          var history := WeatherRows(list);
          weatherHistory := history;
      }
      loadingWeather := false;
    }

    /**
     * `fetchCryptoHistory`: the rows are replaced only when the three series line up; a failed
     * fetch or a short series leaves them as they were; loading always ends.
     */
    method FetchCryptoHistory(outcome: CryptoFetch)
      modifies this
      ensures !loadingCrypto
      ensures outcome.CryptoDelivered? && CryptoRows(outcome.prices, outcome.volumes, outcome.caps).Some? ==>
                cryptoHistory == CryptoRows(outcome.prices, outcome.volumes, outcome.caps).value
      ensures outcome.CryptoFailed? || CryptoRows(outcome.prices, outcome.volumes, outcome.caps).None? ==>
                cryptoHistory == old(cryptoHistory)
      ensures weatherHistory == old(weatherHistory) && weatherError == old(weatherError) && loadingWeather == old(loadingWeather)
    {
      loadingCrypto := true;
      if outcome.CryptoDelivered? {
        var history := CryptoRows(outcome.prices, outcome.volumes, outcome.caps);
        if history.Some? {
          cryptoHistory := history.value;
        }
      }
      loadingCrypto := false;
    }
  }
}
