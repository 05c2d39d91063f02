/**
 * The weather page: condition icons, wind-direction buckets, the AQI and UV ladders, the
 * tip list, the hourly / daily / simulated 15-day forecasts built from an OpenWeather
 * forecast payload, the list of cities fetched, and the state the page and its detail
 * dialog keep around each fetch.
 *
 * The payloads arrive as parameters; `Math.random()` draws arrive as a list of values in
 * [0, 1); times stay as the numbers the API sends (locale formatting is not modelled).
 */
module Weather {
  import opened Wrappers
  import opened Lists
  import opened Text
  import opened JsNumber
  import opened SoundProvider

  const PredefinedCities: seq<string> := ["New York", "London", "Tokyo", "Paris", "Dubai", "Singapore"]
  const AdditionalCities: seq<string> :=
    ["Mumbai", "Sydney", "Toronto", "Berlin", "Moscow", "Rome", "Madrid", "Amsterdam", "Seoul", "Hong Kong"]

  // ---------------------------------------------------------------------------
  // Condition icons
  // ---------------------------------------------------------------------------

  datatype WeatherIcon = WiDaySunny | WiCloudy | WiRain | WiDayThunderstorm | WiSnow | WiDust

  /** The condition names, in lower case, that have an icon of their own. */
  const IconConditions: seq<string> := ["clear", "clouds", "rain", "drizzle", "thunderstorm", "snow"]

  /** `getWeatherIcon`: a switch on the lower-cased condition, dust for anything unlisted. */
  function WeatherIconOf(condition: string): WeatherIcon {
    var c := ToLower(condition);
    if c == "clear" then WiDaySunny
    else if c == "clouds" then WiCloudy
    else if c == "rain" || c == "drizzle" then WiRain
    else if c == "thunderstorm" then WiDayThunderstorm
    else if c == "snow" then WiSnow
    else WiDust
  }

  /** The icon does not depend on letter case. */
  lemma WeatherIconIgnoresCase(condition: string)
    ensures WeatherIconOf(ToLower(condition)) == WeatherIconOf(condition)
  {
    ToLowerIdempotent(condition);
  }

  /** Rain and drizzle share an icon, and exactly the unlisted conditions get the dust icon. */
  lemma WeatherIconCases(condition: string)
    ensures WeatherIconOf(condition) == WiDust <==> ToLower(condition) !in IconConditions
    ensures ToLower(condition) in ["rain", "drizzle"] <==> WeatherIconOf(condition) == WiRain
  {
  }

  // ---------------------------------------------------------------------------
  // Wind direction
  // ---------------------------------------------------------------------------

  const Directions: seq<string> := ["N", "NE", "E", "SE", "S", "SW", "W", "NW"]

  /** `directions[Math.round(degrees / 45) % 8]`; a negative index reads `undefined`. */
  function WindDirection(degrees: real): Option<string> {
    var k := JsRem(JsRound(degrees / 45.0), 8);
    if k >= 0 then Some(Directions[k]) else None
  }

  /**
   * A bearing of at least 0 degrees gets the compass point nearest to it: the multiple `k`
   * of 45 degrees within half a sector, with `k` taken modulo 8.
   */
  lemma WindDirectionNearest(degrees: real)
    requires degrees >= 0.0
    ensures var k := JsRound(degrees / 45.0);
            k >= 0
            && 45.0 * (k as real) - 45.0 / 2.0 <= degrees < 45.0 * (k as real) + 45.0 / 2.0
            && WindDirection(degrees) == Some(Directions[k % 8])
  {
    var k := JsRound(degrees / 45.0);
    var x := degrees / 45.0;
    assert x - 1.0 / 2.0 < k as real <= x + 1.0 / 2.0;
    assert degrees == 45.0 * x;
  }

  /** A full turn does not change the direction. */
  lemma WindDirectionFullTurn(degrees: real)
    requires degrees >= 0.0
    ensures WindDirection(degrees + 360.0) == WindDirection(degrees)
  {
    var k := JsRound(degrees / 45.0);
    assert (degrees + 360.0) / 45.0 + 1.0 / 2.0 == (degrees / 45.0 + 1.0 / 2.0) + 8.0;
    assert JsRound((degrees + 360.0) / 45.0) == k + 8;
    assert (k + 8) % 8 == k % 8;
  }

  /** North at 0 and 360 degrees, east at 90. */
  lemma WindDirectionPoints()
    ensures WindDirection(0.0) == Some("N")
    ensures WindDirection(360.0) == Some("N")
    ensures WindDirection(90.0) == Some("E")
  {
    assert JsRound(0.0 / 45.0) == 0;
    assert JsRound(360.0 / 45.0) == 8;
    assert JsRound(90.0 / 45.0) == 2;
  }

  // ---------------------------------------------------------------------------
  // Air quality and UV ladders
  // ---------------------------------------------------------------------------

  datatype AqiCategory = Good | Moderate | SensitiveGroups | Unhealthy | VeryUnhealthy | Hazardous
  {
    function Label(): string {
      match this
      case Good => "Good"
      case Moderate => "Moderate"
      case SensitiveGroups => "Unhealthy for Sensitive Groups"
      case Unhealthy => "Unhealthy"
      case VeryUnhealthy => "Very Unhealthy"
      case Hazardous => "Hazardous"
    }

    function Color(): string {
      match this
      case Good => "text-green-500"
      case Moderate => "text-yellow-500"
      case SensitiveGroups => "text-orange-500"
      case Unhealthy => "text-red-500"
      case VeryUnhealthy => "text-purple-500"
      case Hazardous => "text-red-800"
    }

    /** Position on the ladder, from best to worst. */
    function Rank(): nat {
      match this
      case Good => 0
      case Moderate => 1
      case SensitiveGroups => 2
      case Unhealthy => 3
      case VeryUnhealthy => 4
      case Hazardous => 5
    }
  }

  /** `getAQICategory`: the first threshold the index does not exceed. */
  function AqiCategoryOf(aqi: real): AqiCategory {
    if aqi <= 50.0 then Good
    else if aqi <= 100.0 then Moderate
    else if aqi <= 150.0 then SensitiveGroups
    else if aqi <= 200.0 then Unhealthy
    else if aqi <= 300.0 then VeryUnhealthy
    else Hazardous
  }

  /** A worse index never gets a better category. */
  lemma AqiMonotone(a: real, b: real)
    requires a <= b
    ensures AqiCategoryOf(a).Rank() <= AqiCategoryOf(b).Rank()
  {
  }

  /** Each category covers exactly one interval of the index. */
  lemma AqiIntervals(aqi: real)
    ensures AqiCategoryOf(aqi) == Good <==> aqi <= 50.0
    ensures AqiCategoryOf(aqi) == Moderate <==> 50.0 < aqi <= 100.0
    ensures AqiCategoryOf(aqi) == SensitiveGroups <==> 100.0 < aqi <= 150.0
    ensures AqiCategoryOf(aqi) == Unhealthy <==> 150.0 < aqi <= 200.0
    ensures AqiCategoryOf(aqi) == VeryUnhealthy <==> 200.0 < aqi <= 300.0
    ensures AqiCategoryOf(aqi) == Hazardous <==> 300.0 < aqi
  {
  }

  datatype UvColor = Green | Yellow | Orange | Red | Purple
  {
    function ClassName(): string {
      match this
      case Green => "text-green-500"
      case Yellow => "text-yellow-500"
      case Orange => "text-orange-500"
      case Red => "text-red-500"
      case Purple => "text-purple-500"
    }

    function Rank(): nat {
      match this
      case Green => 0
      case Yellow => 1
      case Orange => 2
      case Red => 3
      case Purple => 4
    }
  }

  /** `getUVColor`: the first threshold the UV index does not exceed. */
  function UvColorOf(value: real): UvColor {
    if value <= 2.0 then Green
    else if value <= 5.0 then Yellow
    else if value <= 7.0 then Orange
    else if value <= 10.0 then Red
    else Purple
  }

  lemma UvMonotone(a: real, b: real)
    requires a <= b
    ensures UvColorOf(a).Rank() <= UvColorOf(b).Rank()
  {
  }

  lemma UvIntervals(value: real)
    ensures UvColorOf(value) == Green <==> value <= 2.0
    ensures UvColorOf(value) == Yellow <==> 2.0 < value <= 5.0
    ensures UvColorOf(value) == Orange <==> 5.0 < value <= 7.0
    ensures UvColorOf(value) == Red <==> 7.0 < value <= 10.0
    ensures UvColorOf(value) == Purple <==> 10.0 < value
  {
  }

  // ---------------------------------------------------------------------------
  // Tips
  // ---------------------------------------------------------------------------

  const ColdTips: seq<string> := ["Wear warm clothing and layers", "Consider wearing a hat and gloves"]
  const HotTips: seq<string> := ["Stay hydrated and wear light clothing", "Use sunscreen if going outside"]
  const RainTips: seq<string> := ["Carry an umbrella or raincoat", "Be cautious of slippery surfaces"]
  const SnowTips: seq<string> := ["Wear waterproof boots", "Be careful while driving"]

  /** The lower-cased conditions mention `word`. */
  predicate Mentions(conditions: string, word: string) {
    Contains(ToLower(conditions), word)
  }

  function TemperatureTips(temperature: real): seq<string> {
    if temperature < 10.0 then ColdTips
    else if temperature > 25.0 then HotTips
    else []
  }

  /** The tip list: temperature tips, then rain tips, then snow tips. */
  function Tips(conditions: string, temperature: real): seq<string> {
    TemperatureTips(temperature)
    + (if Mentions(conditions, "rain") then RainTips else [])
    + (if Mentions(conditions, "snow") then SnowTips else [])
  }

  /** `getTips`: the list is built by pushing tips one at a time. */
  method GetTips(conditions: string, temperature: real) returns (tips: seq<string>)
    ensures tips == Tips(conditions, temperature)
  {
    tips := [];
    if temperature < 10.0 {
      tips := tips + ["Wear warm clothing and layers"];
      tips := tips + ["Consider wearing a hat and gloves"];
    } else if temperature > 25.0 {
      tips := tips + ["Stay hydrated and wear light clothing"];
      tips := tips + ["Use sunscreen if going outside"];
    }
    var lower := ToLower(conditions);
    if Contains(lower, "rain") {
      tips := tips + ["Carry an umbrella or raincoat"];
      tips := tips + ["Be cautious of slippery surfaces"];
    }
    if Contains(lower, "snow") {
      tips := tips + ["Wear waterproof boots"];
      tips := tips + ["Be careful while driving"];
    }
  }

  /**
   * Tips come in pairs, at most three pairs; a cold or hot temperature puts its pair first,
   * a mild one adds none; the rain and snow pairs appear exactly when the conditions
   * mention rain or snow.
   */
  lemma TipsSpec(conditions: string, temperature: real)
    ensures var tips := Tips(conditions, temperature);
            |tips| % 2 == 0 && |tips| <= 6
            && (temperature < 10.0 ==> tips[..2] == ColdTips)
            && (temperature > 25.0 ==> tips[..2] == HotTips)
            && (10.0 <= temperature <= 25.0 ==> ColdTips[0] !in tips && HotTips[0] !in tips)
            && (RainTips[0] in tips <==> Mentions(conditions, "rain"))
            && (SnowTips[0] in tips <==> Mentions(conditions, "snow"))
  {
    var tips := Tips(conditions, temperature);
    var t := TemperatureTips(temperature);
    var r := if Mentions(conditions, "rain") then RainTips else [];
    var s := if Mentions(conditions, "snow") then SnowTips else [];
    assert tips == t + r + s;
    assert forall x :: x in tips <==> x in t || x in r || x in s;
  }

  // ---------------------------------------------------------------------------
  // Forecasts
  // ---------------------------------------------------------------------------

  /** One entry of the forecast payload's `list`; `weather` holds each entry's `main`. */
  datatype ForecastItem = ForecastItem(dt: int, temp: real, tempMin: real, tempMax: real, weather: seq<string>)

  datatype HourlyForecast = HourlyForecast(dt: int, temp: int, conditions: string, icon: WeatherIcon)

  /** Where a forecast day's date comes from: the entry's time, or today plus some days. */
  datatype DayStamp = ApiTime(dt: int) | DaysFromToday(days: int)

  datatype ForecastDay = ForecastDay(date: DayStamp, min: int, max: int, conditions: string, icon: WeatherIcon)

  /** One hourly entry; reading `weather[0].main` of an entry without weather throws. */
  function HourlyOf(item: ForecastItem): Option<HourlyForecast> {
    if item.weather == [] then None
    else Some(HourlyForecast(item.dt, JsRound(item.temp), item.weather[0], WeatherIconOf(item.weather[0])))
  }

  /** `list.slice(0, 8).map(...)`: the next 24 hours in 3-hour steps. */
  function HourlyForecastOf(list: seq<ForecastItem>): Option<seq<HourlyForecast>> {
    MapAll(Take(list, 8), HourlyOf)
  }

  /**
   * The hourly forecast exists exactly when each of the first `min(8, n)` entries has weather;
   * then it has one entry per such item, in order, with the temperature rounded.
   */
  lemma HourlySpec(list: seq<ForecastItem>)
    ensures HourlyForecastOf(list).Some? <==> forall i :: 0 <= i < Min(8, |list|) ==> list[i].weather != []
    ensures HourlyForecastOf(list).Some? ==>
              var h := HourlyForecastOf(list).value;
              |h| == Min(8, |list|)
              && forall i :: 0 <= i < |h| ==>
                   h[i].dt == list[i].dt && h[i].temp == JsRound(list[i].temp) && h[i].conditions == list[i].weather[0]
  {
    assert forall i :: 0 <= i < Min(8, |list|) ==> Take(list, 8)[i] == list[i];
  }

  /** `filter((_, index) => index % 8 === 0)`: the entries at indices 0, 8, 16, ... */
  function EveryEighth<T>(xs: seq<T>): seq<T> {
    seq((|xs| + 7) / 8, k requires 0 <= k < (|xs| + 7) / 8 => xs[8 * k])
  }

  /** Exactly the entries whose index is a multiple of 8 are picked, in index order. */
  lemma EveryEighthPicks<T>(xs: seq<T>)
    ensures forall j :: 0 <= j < |xs| && j % 8 == 0 ==> j / 8 < |EveryEighth(xs)| && EveryEighth(xs)[j / 8] == xs[j]
    ensures forall k :: 0 <= k < |EveryEighth(xs)| ==> 8 * k < |xs| && EveryEighth(xs)[k] == xs[8 * k]
  {
  }

  function DayOf(item: ForecastItem): Option<ForecastDay> {
    if item.weather == [] then None
    else Some(ForecastDay(ApiTime(item.dt), JsRound(item.tempMin), JsRound(item.tempMax),
                          item.weather[0], WeatherIconOf(item.weather[0])))
  }

  /** The daily forecast: one reading per day, at most five days. */
  function InitialForecast(list: seq<ForecastItem>): Option<seq<ForecastDay>> {
    MapAll(Take(EveryEighth(list), 5), DayOf)
  }

  lemma InitialForecastSpec(list: seq<ForecastItem>)
    ensures InitialForecast(list).Some? ==>
              var days := InitialForecast(list).value;
              |days| == Min(5, (|list| + 7) / 8)
              && forall k :: 0 <= k < |days| ==>
                   days[k].date == ApiTime(list[8 * k].dt)
                   && days[k].min == JsRound(list[8 * k].tempMin) && days[k].max == JsRound(list[8 * k].tempMax)
  {
    var picked := Take(EveryEighth(list), 5);
    assert forall k :: 0 <= k < |picked| ==> picked[k] == list[8 * k];
  }

  const ConditionOptions: seq<string> := ["Clear", "Clouds", "Rain", "Drizzle", "Thunderstorm", "Snow"]

  /** The icon `getWeatherIcon` gives each of the simulated conditions. */
  const ConditionIcons: seq<WeatherIcon> := [WiDaySunny, WiCloudy, WiRain, WiRain, WiDayThunderstorm, WiSnow]

  /** OpenWeather's capitalised condition names get their icons. */
  lemma OpenWeatherIcons()
    ensures WeatherIconOf("Clear") == WiDaySunny
    ensures WeatherIconOf("Clouds") == WiCloudy
    ensures WeatherIconOf("Rain") == WiRain
    ensures WeatherIconOf("Drizzle") == WiRain
    ensures WeatherIconOf("Thunderstorm") == WiDayThunderstorm
    ensures WeatherIconOf("Snow") == WiSnow
  {
    assert ToLower("Clear") == "clear";
    assert ToLower("Clouds") == "clouds";
    assert ToLower("Rain") == "rain";
    assert ToLower("Drizzle") == "drizzle";
    assert ToLower("Thunderstorm") == "thunderstorm";
    assert ToLower("Snow") == "snow";
  }

  lemma ConditionIconsAgree(k: int)
    requires 0 <= k < |ConditionOptions|
    ensures WeatherIconOf(ConditionOptions[k]) == ConditionIcons[k]
  {
    OpenWeatherIcons();
  }

  /** The two `Math.random()` values one simulated day draws, in call order. */
  datatype Draw = Draw(variation: real, condition: real)

  predicate ValidDraw(d: Draw) {
    0.0 <= d.variation < 1.0 && 0.0 <= d.condition < 1.0
  }

  /** `Math.floor(Math.random() * 6) - 3`. */
  function TempVariation(r: real): (v: int)
    requires 0.0 <= r < 1.0
    ensures -3 <= v <= 2
  {
    (r * 6.0).Floor - 3
  }

  /** `Math.floor(Math.random() * conditionOptions.length)`. */
  function ConditionIndex(r: real): (k: nat)
    requires 0.0 <= r < 1.0
    ensures k < |ConditionOptions|
  {
    (r * 6.0).Floor
  }

  /** Simulated day `i` (1 to 10): the base day's range shifted and clamped, a drawn condition. */
  function SimulatedDay(base: ForecastDay, d: Draw, i: int): ForecastDay
    requires ValidDraw(d)
  {
    var v := TempVariation(d.variation);
    var k := ConditionIndex(d.condition);
    ForecastDay(DaysFromToday(5 + i), Max(-10, base.min + v), Min(45, base.max + v), ConditionOptions[k], ConditionIcons[k])
  }

  /** Simulated days 1 to `n`, day `i` based on `initial[i % 5]`. */
  function SimulatedDays(initial: seq<ForecastDay>, draws: seq<Draw>, n: nat): seq<ForecastDay>
    requires n <= 10 && |draws| == 10
    requires forall k :: 0 <= k < 10 ==> ValidDraw(draws[k])
    requires n > 0 ==> |initial| >= Min(n + 1, 5)
  {
    if n == 0 then []
    else SimulatedDays(initial, draws, n - 1) + [SimulatedDay(initial[n % 5], draws[n - 1], n)]
  }

  lemma {:induction false} SimulatedDaysAt(initial: seq<ForecastDay>, draws: seq<Draw>, n: nat, i: int)
    requires n <= 10 && |draws| == 10
    requires forall k :: 0 <= k < 10 ==> ValidDraw(draws[k])
    requires n > 0 ==> |initial| >= Min(n + 1, 5)
    requires 1 <= i <= n
    ensures |SimulatedDays(initial, draws, n)| == n
    ensures i % 5 < |initial|
    ensures SimulatedDays(initial, draws, n)[i - 1] == SimulatedDay(initial[i % 5], draws[i - 1], i)
  {
    if i < n {
      SimulatedDaysAt(initial, draws, n - 1, i);
    } else if n > 1 {
      SimulatedDaysAt(initial, draws, n - 1, n - 1);
    }
  }

  /** The daily forecast followed by the ten simulated days. */
  function Extended(initial: seq<ForecastDay>, draws: seq<Draw>): seq<ForecastDay>
    requires |initial| >= 5 && |draws| == 10
    requires forall k :: 0 <= k < 10 ==> ValidDraw(draws[k])
  {
    initial + SimulatedDays(initial, draws, 10)
  }

  /**
   * The extension loop. With fewer than five daily entries `initialForecast[i % 5]` is
   * `undefined` for some `i` and reading its temperature throws.
   */
  method ExtendForecast(initial: seq<ForecastDay>, draws: seq<Draw>) returns (r: Option<seq<ForecastDay>>)
    requires |draws| == 10 && forall k :: 0 <= k < 10 ==> ValidDraw(draws[k])
    ensures r.None? <==> |initial| < 5
    ensures r.Some? ==> |initial| >= 5 && r.value == Extended(initial, draws)
  {
    var extended := initial;
    var i := 1;
    while i <= 10
      invariant 1 <= i <= 11
      invariant i >= 2 ==> |initial| >= Min(i, 5)
      invariant extended == initial + SimulatedDays(initial, draws, i - 1)
    {
      if i % 5 >= |initial| {
        return None;
      }
      var baseDay := initial[i % 5];
      var tempVariation := TempVariation(draws[i - 1].variation);
      var randomConditionIndex := ConditionIndex(draws[i - 1].condition);
      var condition := ConditionOptions[randomConditionIndex];
      var icon := WeatherIconOf(condition);
      ConditionIconsAgree(randomConditionIndex);
      extended := extended + [ForecastDay(DaysFromToday(5 + i), Max(-10, baseDay.min + tempVariation),
                                          Min(45, baseDay.max + tempVariation), condition, icon)];
      i := i + 1;
    }
    r := Some(extended);
  }

  /**
   * Simulated day `i` is dated `5 + i` days from today, never below -10 or above 45 degrees,
   * otherwise within [-3, 2] degrees of its base day, with one of the drawn conditions.
   */
  predicate SimulatedFrom(day: ForecastDay, base: ForecastDay, i: int) {
    day.date == DaysFromToday(5 + i)
    && day.min >= -10 && day.max <= 45
    && (day.min > -10 ==> base.min - 3 <= day.min <= base.min + 2)
    && (day.max < 45 ==> base.max - 3 <= day.max <= base.max + 2)
    && day.conditions in ConditionOptions
  }

  /**
   * The extended forecast keeps the daily days and adds exactly ten more; day `i` is
   * simulated from `initial[i % 5]`.
   */
  lemma ExtendedSpec(initial: seq<ForecastDay>, draws: seq<Draw>)
    requires |initial| >= 5 && |draws| == 10
    requires forall k :: 0 <= k < 10 ==> ValidDraw(draws[k])
    ensures |Extended(initial, draws)| == |initial| + 10
    ensures Extended(initial, draws)[..|initial|] == initial
    ensures forall i :: 1 <= i <= 10 ==> SimulatedFrom(Extended(initial, draws)[|initial| + i - 1], initial[i % 5], i)
  {
    var e := Extended(initial, draws);
    SimulatedDaysAt(initial, draws, 10, 1);
    assert e[..|initial|] == initial;
    forall i | 1 <= i <= 10
      ensures SimulatedFrom(e[|initial| + i - 1], initial[i % 5], i)
    {
      SimulatedDaysAt(initial, draws, 10, i);
    }
  }

  // ---------------------------------------------------------------------------
  // The page and the detail dialog
  // ---------------------------------------------------------------------------

  /** `[...PREDEFINED_CITIES]`, plus the selected city when one is chosen. */
  function CitiesToFetch(selectedCity: Option<string>): (cities: seq<string>)
    ensures |cities| == (if selectedCity.Some? && selectedCity.value != "" then 7 else 6)
    ensures cities[..6] == PredefinedCities
    ensures |cities| == 7 ==> cities[6] == selectedCity.value
  {
    if selectedCity.Some? && selectedCity.value != "" then PredefinedCities + [selectedCity.value]
    else PredefinedCities
  }

  /** The current-weather payload of one city. */
  datatype CurrentWeather = CurrentWeather(
    temp: real, humidity: real, weather: seq<string>, feelsLike: real, pressure: real,
    windSpeed: real, windDeg: real, sunrise: int, sunset: int)

  /** Both responses of one city; a failed request is a missing report. */
  datatype CityReport = CityReport(current: CurrentWeather, forecast: seq<ForecastItem>)

  datatype WeatherData = WeatherData(
    city: string, temperature: int, humidity: real, conditions: string, icon: WeatherIcon,
    hourlyForecast: seq<HourlyForecast>)

  /** One city's card; it throws when the current weather or an hourly entry lacks a condition. */
  function CityWeather(city: string, report: CityReport): Option<WeatherData> {
    var hourly := HourlyForecastOf(report.forecast);
    if hourly.None? || report.current.weather == [] then None
    else
      var condition := report.current.weather[0];
      Some(WeatherData(city, JsRound(report.current.temp), report.current.humidity, condition,
                       WeatherIconOf(condition), hourly.value))
  }

  /** `Promise.all` over the cities: one failure rejects the whole batch. */
  function FetchAll(cities: seq<string>, reports: seq<Option<CityReport>>): (r: Option<seq<WeatherData>>)
    requires |reports| == |cities|
    ensures r.Some? <==> forall i :: 0 <= i < |cities| ==>
                           reports[i].Some? && CityWeather(cities[i], reports[i].value).Some?
    ensures r.Some? ==> |r.value| == |cities|
                        && forall i :: 0 <= i < |cities| ==> r.value[i] == CityWeather(cities[i], reports[i].value).value
  {
    if cities == [] then Some([])
    else if reports[0].None? then None
    else
      match CityWeather(cities[0], reports[0].value)
      case None => None
      case Some(w) =>
        match FetchAll(cities[1..], reports[1..])
        case None =>
          assert forall i :: 0 <= i < |cities| - 1 ==> cities[1..][i] == cities[i + 1] && reports[1..][i] == reports[i + 1];
          None
        case Some(ws) =>
          assert forall i :: 1 <= i < |cities| ==> cities[i] == cities[1..][i - 1] && reports[i] == reports[1..][i - 1];
          Some([w] + ws)
  }

  /** A successful batch lists every fetched city once, in fetch order. */
  lemma FetchAllCities(cities: seq<string>, reports: seq<Option<CityReport>>)
    requires |reports| == |cities|
    requires FetchAll(cities, reports).Some?
    ensures forall i :: 0 <= i < |cities| ==> FetchAll(cities, reports).value[i].city == cities[i]
  {
  }

  /** The page's state, next to the sound provider its click handlers use. */
  class WeatherPage {
    var weatherData: seq<WeatherData>
    var selectedCity: Option<string>
    var loading: bool
    var isRefreshing: bool
    var error: Option<string>
    var selectedDetailCity: Option<string>
    const sound: Provider

    constructor(sound: Provider)
      ensures weatherData == [] && selectedCity == None && loading && !isRefreshing && error == None
      ensures selectedDetailCity == None && this.sound == sound
    {
      weatherData := [];
      selectedCity := None;
      loading := true;
      isRefreshing := false;
      error := None;
      selectedDetailCity := None;
      this.sound := sound;
    }

    /** Choosing a city in the select plays the click sound and records the city. */
    method SelectCity(city: string) returns (played: bool)
      modifies this
      ensures played == sound.isSoundEnabled
      ensures selectedCity == Some(city)
      ensures weatherData == old(weatherData) && loading == old(loading)
      ensures isRefreshing == old(isRefreshing) && error == old(error)
      ensures selectedDetailCity == old(selectedDetailCity)
    {
      played := sound.PlaySound();
      selectedCity := Some(city);
    }

    /** Clicking a city's card plays the click sound and opens the detail dialog on that city. */
    method OpenDetails(city: string) returns (played: bool)
      modifies this
      ensures played == sound.isSoundEnabled
      ensures selectedDetailCity == Some(city)
      ensures weatherData == old(weatherData) && selectedCity == old(selectedCity)
      ensures loading == old(loading) && isRefreshing == old(isRefreshing) && error == old(error)
    {
      played := sound.PlaySound();
      selectedDetailCity := Some(city);
    }

    /** Closing the detail dialog plays the click sound and clears its city, which closes it. */
    method CloseDetails() returns (played: bool)
      modifies this
      ensures played == sound.isSoundEnabled
      ensures selectedDetailCity == None
      ensures weatherData == old(weatherData) && selectedCity == old(selectedCity)
      ensures loading == old(loading) && isRefreshing == old(isRefreshing) && error == old(error)
    {
      played := sound.PlaySound();
      selectedDetailCity := None;
    }

    /** The refresh button plays the click sound, then runs one refresh. */
    method RefreshButton(reports: seq<Option<CityReport>>, failure: string) returns (played: bool)
      requires |reports| == |CitiesToFetch(selectedCity)|
      modifies this
      ensures played == sound.isSoundEnabled
      ensures var fetched := FetchAll(old(CitiesToFetch(selectedCity)), reports);
              (fetched.Some? ==> weatherData == fetched.value && error == None)
              && (fetched.None? ==> weatherData == old(weatherData) && error == Some(failure))
      ensures !loading && !isRefreshing && selectedCity == old(selectedCity)
      ensures selectedDetailCity == old(selectedDetailCity)
    {
      played := sound.PlaySound();
      Refresh(reports, failure);
    }

    /**
     * One refresh, given each city's responses (`None` for a failed request) and the message
     * of the rejection when the batch fails: success replaces the cards and clears the
     * error; failure keeps the old cards and records the message; both end the loading.
     */
    method Refresh(reports: seq<Option<CityReport>>, failure: string)
      requires |reports| == |CitiesToFetch(selectedCity)|
      modifies this
      ensures var fetched := FetchAll(old(CitiesToFetch(selectedCity)), reports);
              (fetched.Some? ==> weatherData == fetched.value && error == None)
              && (fetched.None? ==> weatherData == old(weatherData) && error == Some(failure))
      ensures !loading && !isRefreshing && selectedCity == old(selectedCity)
      ensures selectedDetailCity == old(selectedDetailCity)
    {
      isRefreshing := true;
      loading := true;
      var citiesToFetch := CitiesToFetch(selectedCity);
      var results := FetchAll(citiesToFetch, reports);
      if results.Some? {
        weatherData := results.value;
        error := None;
      } else {
        error := Some(failure);
      }
      loading := false;
      isRefreshing := false;
    }
  }

  datatype WeatherDetails = WeatherDetails(
    city: string, temperature: int, humidity: real, conditions: string, icon: WeatherIcon,
    hourlyForecast: seq<HourlyForecast>, feelsLike: int, pressure: real, windSpeed: real,
    windDirection: Option<string>, sunrise: int, sunset: int, extendedForecast: seq<ForecastDay>)

  /** What the detail dialog shows for `city`, or `None` when assembling it throws. */
  function DetailsOf(city: string, report: CityReport, draws: seq<Draw>): Option<WeatherDetails>
    requires |draws| == 10 && forall k :: 0 <= k < 10 ==> ValidDraw(draws[k])
  {
    var hourly := HourlyForecastOf(report.forecast);
    var initial := InitialForecast(report.forecast);
    var current := report.current;
    if hourly.None? || initial.None? || |initial.value| < 5 || current.weather == [] then None
    else
      Some(WeatherDetails(city, JsRound(current.temp), current.humidity, current.weather[0],
                          WeatherIconOf(current.weather[0]), hourly.value, JsRound(current.feelsLike),
                          current.pressure, current.windSpeed, WindDirection(current.windDeg),
                          current.sunrise, current.sunset, Extended(initial.value, draws)))
  }

  /** The detail dialog's state around its fetch. */
  class DetailDialog {
    var detailedData: Option<WeatherDetails>
    var loading: bool
    var error: Option<string>

    constructor()
      ensures detailedData == None && loading && error == None
    {
      detailedData := None;
      loading := true;
      error := None;
    }

    /**
     * Opening the dialog for `city` fetches its details (`report` is `None` when a request
     * fails): the error is cleared first, a failure records `failure` and keeps the old
     * details, and loading always ends. A closed dialog fetches nothing.
     */
    method Fetch(isOpen: bool, city: string, report: Option<CityReport>, draws: seq<Draw>, failure: string)
      requires |draws| == 10 && forall k :: 0 <= k < 10 ==> ValidDraw(draws[k])
      modifies this
      ensures !isOpen ==> detailedData == old(detailedData) && loading == old(loading) && error == old(error)
      ensures isOpen ==>
                var details := if report.Some? then DetailsOf(city, report.value, draws) else None;
                !loading
                && (details.Some? ==> detailedData == details && error == None)
                && (details.None? ==> detailedData == old(detailedData) && error == Some(failure))
    {
      if !isOpen {
        return;
      }
      loading := true;
      error := None;
      if report.None? {
        error := Some(failure);
        loading := false;
        return;
      }
      var current := report.value.current;
      var hourly := HourlyForecastOf(report.value.forecast);
      var initial := InitialForecast(report.value.forecast);
      if hourly.None? || initial.None? {
        error := Some(failure);
        loading := false;
        return;
      }
      var extended := ExtendForecast(initial.value, draws);
      if extended.None? || current.weather == [] {
        error := Some(failure);
      } else {
        detailedData := Some(WeatherDetails(city, JsRound(current.temp), current.humidity, current.weather[0],
                                            WeatherIconOf(current.weather[0]), hourly.value, JsRound(current.feelsLike),
                                            current.pressure, current.windSpeed, WindDirection(current.windDeg),
                                            current.sunrise, current.sunset, extended.value));
      }
      loading := false;
    }
  }
}
