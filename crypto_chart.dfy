/**
 * The price chart card: the coin list for its combobox, the period filter over a fetched
 * price series, the chart points built from it, and the change badge.
 * `Date.now()` and the fetched series are parameters.
 */
module CryptoChart {
  import opened Wrappers
  import opened Lists
  import opened Json
  import opened JsNumber

  const OneDayMs: int := 24 * 60 * 60 * 1000

  /** One `[timestamp, price]` pair of the market-chart response (epoch milliseconds). */
  datatype PricePoint = PricePoint(timestamp: int, price: real)

  /** One chart entry: the point's time (formatted as a date for display) and its price rounded to cents. */
  datatype ChartPoint = ChartPoint(timestamp: int, price: real)

  /** A change percentage, or the `Infinity`/`NaN` that dividing by a zero first price gives. */
  datatype Change = Percent(pct: real) | NotFinite

  /** One combobox entry (`caption` is its `label`); `value`, `caption`, `icon` and `price` are fields as fetched. */
  datatype ComboCoin = ComboCoin(value: JsValue, caption: JsValue, icon: JsValue, price: JsValue, change: real)

  /** The days a period tag covers; any other tag means no filtering. */
  function WindowDays(period: string): Option<nat> {
    if period == "1D" then Some(1)
    else if period == "7D" then Some(7)
    else if period == "30D" then Some(30)
    else if period == "1Y" then Some(365)
    else None
  }

  function Within(now: int, limitMs: int): PricePoint -> bool {
    (p: PricePoint) => now - p.timestamp < limitMs
  }

  /** The `switch (selectedPeriod)` of the price effect. */
  function FilterPrices(prices: seq<PricePoint>, now: int, period: string): seq<PricePoint> {
    match WindowDays(period)
    case Some(days) => Filter(prices, Within(now, days * OneDayMs))
    case None => prices
  }

  /**
   * The chart data: one entry per filtered point, same order, each with its point's time and
   * the point's price rounded to the nearest cent, as `toFixed(2)` writes it.
   */
  function ToChart(points: seq<PricePoint>): (r: seq<ChartPoint>)
    ensures |r| == |points|
    ensures forall i :: 0 <= i < |points| ==>
              r[i].timestamp == points[i].timestamp && NearestCent(points[i].price, r[i].price)
  {
    seq(|points|, i requires 0 <= i < |points| => ChartPoint(points[i].timestamp, ToFixed2(points[i].price)))
  }

  /**
   * `(last - first) / first * 100`: a finite percentage for a non-zero first price, whose
   * sign for a positive first price is the sign of the move; `Infinity`/`NaN` for a zero one.
   */
  function PercentChange(first: real, last: real): (c: Change)
    ensures first != 0.0 ==> c.Percent? && c.pct * first == (last - first) * 100.0
    ensures first > 0.0 ==> (c.pct >= 0.0 <==> last >= first)
    ensures first == 0.0 ==> c == NotFinite
  {
    if first == 0.0 then NotFinite
    else
      var c := Percent((last - first) / first * 100.0);
      if first > 0.0 then
        SignOfQuotient(c.pct, first, last - first);
        c
      else c
  }

  /** As written: the change is computed from the chart's two-decimal prices. */
  function ChangeOfChart(chart: seq<ChartPoint>): Change
    requires |chart| > 1
  {
    PercentChange(chart[0].price, chart[|chart| - 1].price)
  }

  /** Corrected: the change is computed from the fetched prices of the window. */
  function ChangeOfPrices(points: seq<PricePoint>): (c: Change)
    requires |points| > 1
    ensures points[0].price > 0.0 ==> c.Percent? && (c.pct >= 0.0 <==> points[|points| - 1].price >= points[0].price)
  {
    PercentChange(points[0].price, points[|points| - 1].price)
  }

  lemma SignOfQuotient(q: real, d: real, n: real)
    requires d > 0.0 && q * d == n * 100.0
    ensures q >= 0.0 <==> n >= 0.0
  {
    if q < 0.0 {
      assert q * d < 0.0;
    }
    if n < 0.0 {
      assert q * d < 0.0;
    }
  }

  /**
   * The price badge as the program sets it: it keeps its previous value unless the chart has
   * more than one point, and is otherwise the change between the chart's first and last
   * cent-rounded prices.
   */
  function NextPriceChange(previous: Change, chart: seq<ChartPoint>): (c: Change)
    ensures |chart| <= 1 ==> c == previous
    ensures |chart| > 1 && chart[0].price > 0.0 ==>
              c.Percent? && (c.pct >= 0.0 <==> chart[|chart| - 1].price >= chart[0].price)
    ensures |chart| > 1 && chart[0].price == 0.0 ==> c == NotFinite
  {
    if |chart| > 1 then ChangeOfChart(chart) else previous
  }

  const ComboKeys: seq<string> := ["id", "symbol", "name", "current_price", "image", "price_change_percentage_24h"]

  /** The per-record callback of the combobox effect; `None` is its `throw`. */
  function FormatComboCoin(v: JsValue): Option<ComboCoin> {
    if HasKeys(v, ComboKeys) && Get(v, "price_change_percentage_24h").JsNumber? then
      Some(ComboCoin(Get(v, "id"), Get(v, "name"), Get(v, "image"), Get(v, "current_price"),
                     ToFixed2(Get(v, "price_change_percentage_24h").n)))
    else None
  }

  /** The whole combobox list, or nothing when any record is malformed. */
  function FormatComboCoins(cryptos: seq<JsValue>): Option<seq<ComboCoin>> {
    MapAll(cryptos, FormatComboCoin)
  }

  /** The period filter never adds points and keeps their order. */
  lemma FilterPricesIsSubsequence(prices: seq<PricePoint>, now: int, period: string)
    ensures IsSubsequence(FilterPrices(prices, now, period), prices)
  {
    match WindowDays(period)
    case Some(days) => FilterIsSubsequence(prices, Within(now, days * OneDayMs));
    case None => FilterKeepsAll(prices, (_: PricePoint) => true);
      FilterIsSubsequence(prices, (_: PricePoint) => true);
  }

  /** Which points each tag keeps: those strictly younger than its window, or all of them. */
  lemma FilterPricesKeeps(prices: seq<PricePoint>, now: int, period: string, p: PricePoint)
    ensures period == "1D" ==> (p in FilterPrices(prices, now, period) <==> p in prices && now - p.timestamp < 86_400_000)
    ensures period == "7D" ==> (p in FilterPrices(prices, now, period) <==> p in prices && now - p.timestamp < 604_800_000)
    ensures period == "30D" ==> (p in FilterPrices(prices, now, period) <==> p in prices && now - p.timestamp < 2_592_000_000)
    ensures period == "1Y" ==> (p in FilterPrices(prices, now, period) <==> p in prices && now - p.timestamp < 31_536_000_000)
    ensures period !in {"1D", "7D", "30D", "1Y"} ==> FilterPrices(prices, now, period) == prices
  {
    match WindowDays(period)
    case Some(days) => FilterMembers(prices, Within(now, days * OneDayMs), p);
    case None =>
  }

  /** The windows nest: 1D within 7D within 30D within 1Y within the whole series. */
  lemma WindowsNest(prices: seq<PricePoint>, now: int)
    ensures IsSubsequence(FilterPrices(prices, now, "1D"), FilterPrices(prices, now, "7D"))
    ensures IsSubsequence(FilterPrices(prices, now, "7D"), FilterPrices(prices, now, "30D"))
    ensures IsSubsequence(FilterPrices(prices, now, "30D"), FilterPrices(prices, now, "1Y"))
    ensures IsSubsequence(FilterPrices(prices, now, "1Y"), prices)
  {
    NestedWindow(prices, now, 1, 7);
    NestedWindow(prices, now, 7, 30);
    NestedWindow(prices, now, 30, 365);
    FilterIsSubsequence(prices, Within(now, 365 * OneDayMs));
  }

  lemma NestedWindow(prices: seq<PricePoint>, now: int, small: nat, large: nat)
    requires small <= large
    ensures Filter(prices, Within(now, small * OneDayMs))
            == Filter(Filter(prices, Within(now, large * OneDayMs)), Within(now, small * OneDayMs))
    ensures IsSubsequence(Filter(prices, Within(now, small * OneDayMs)), Filter(prices, Within(now, large * OneDayMs)))
  {
    var p, q := Within(now, small * OneDayMs), Within(now, large * OneDayMs);
    assert forall x :: p(x) ==> q(x);
    FilterNarrows(prices, p, q);
    FilterIsSubsequence(Filter(prices, q), p);
  }

  /** Every chart entry lies inside the selected window, and the chart has one entry per kept point. */
  lemma ChartFollowsWindow(prices: seq<PricePoint>, now: int, period: string, days: nat)
    requires WindowDays(period) == Some(days)
    ensures |ToChart(FilterPrices(prices, now, period))| == |FilterPrices(prices, now, period)|
    ensures forall c :: c in ToChart(FilterPrices(prices, now, period)) ==> now - c.timestamp < days * OneDayMs
  {
    var window := FilterPrices(prices, now, period);
    var chart := ToChart(window);
    forall c | c in chart
      ensures now - c.timestamp < days * OneDayMs
    {
      var i :| 0 <= i < |chart| && chart[i] == c;
      assert window[i] in window;
      FilterMembers(prices, Within(now, days * OneDayMs), window[i]);
    }
  }

  /** The combobox list: built only if every record is well formed; then one entry per coin, in order. */
  lemma FormatComboCoinsSpec(cryptos: seq<JsValue>)
    ensures FormatComboCoins(cryptos).Some? <==>
              forall i :: 0 <= i < |cryptos| ==>
                HasKeys(cryptos[i], ComboKeys) && Get(cryptos[i], "price_change_percentage_24h").JsNumber?
    ensures FormatComboCoins(cryptos).Some? ==>
              |FormatComboCoins(cryptos).value| == |cryptos| &&
              forall i :: 0 <= i < |cryptos| ==>
                FormatComboCoins(cryptos).value[i].value == Get(cryptos[i], "id") &&
                FormatComboCoins(cryptos).value[i].caption == Get(cryptos[i], "name")
  {
    var r := FormatComboCoins(cryptos);
    forall i | 0 <= i < |cryptos|
      ensures FormatComboCoin(cryptos[i]).Some? <==>
                HasKeys(cryptos[i], ComboKeys) && Get(cryptos[i], "price_change_percentage_24h").JsNumber?
    {
    }
  }

  /**
   * Sub-cent coins: rounding the chart prices to cents turns the first price into 0, so the
   * badge shows a non-finite change although the series rose by a twelfth.
   */
  lemma SubCentChangeLost()
    ensures ChangeOfChart(ToChart([PricePoint(0, 0.000012), PricePoint(1, 0.000013)])) == NotFinite
    ensures ChangeOfPrices([PricePoint(0, 0.000012), PricePoint(1, 0.000013)]) == Percent(25.0 / 3.0)
  {
    var chart := ToChart([PricePoint(0, 0.000012), PricePoint(1, 0.000013)]);
    assert (0.000012 * 100.0 + 1.0 / 2.0).Floor == 0;
    assert chart[0].price == 0.0;
  }

  /**
   * The badge of the program, read against the fetched prices: a rise never shows as a fall
   * once the first price is at least half a cent, but a fall within a cent can show as 0,
   * and a first price below half a cent always gives a non-finite badge.
   */
  lemma ChartBadgeFromPrices(previous: Change, window: seq<PricePoint>)
    requires |window| > 1
    ensures window[0].price >= 1.0 / 200.0 && window[|window| - 1].price >= window[0].price ==>
              NextPriceChange(previous, ToChart(window)).Percent? && NextPriceChange(previous, ToChart(window)).pct >= 0.0
    ensures 0.0 <= window[0].price < 1.0 / 200.0 ==> NextPriceChange(previous, ToChart(window)) == NotFinite
  {
    var chart := ToChart(window);
    var last := |window| - 1;
    if window[0].price >= 1.0 / 200.0 {
      ToFixed2Monotone(1.0 / 200.0, window[0].price);
      assert ToFixed2(1.0 / 200.0) == 1.0 / 100.0 by {
        assert (1.0 / 200.0 * 100.0 + 1.0 / 2.0).Floor == 1;
      }
      if window[last].price >= window[0].price {
        ToFixed2Monotone(window[0].price, window[last].price);
      }
    }
    if 0.0 <= window[0].price < 1.0 / 200.0 {
      var k := (chart[0].price * 100.0).Floor;
      assert -1.0 < k as real < 1.0;
      assert k == 0;
    }
  }

  /** For prices that are whole cents, the program's badge and the corrected one agree. */
  lemma WholeCentPricesAgree(previous: Change, window: seq<PricePoint>)
    requires |window| > 1
    requires WholeCents(window[0].price) && WholeCents(window[|window| - 1].price)
    ensures NextPriceChange(previous, ToChart(window)) == ChangeOfPrices(window)
  {
    var chart := ToChart(window);
    var last := |window| - 1;
    NearestCentUnique(window[0].price, chart[0].price, window[0].price);
    NearestCentUnique(window[last].price, chart[last].price, window[last].price);
  }

  /** The state of one chart card. */
  class ChartCard {
    var value: JsValue
    var selectedPeriod: string
    var comboBoxCoins: seq<ComboCoin>
    var chartData: seq<ChartPoint>
    var priceChange: Change

    constructor ()
      ensures value == JsString("") && selectedPeriod == "7D"
      ensures comboBoxCoins == [] && chartData == [] && priceChange == Percent(0.0)
      ensures !ShowsBadge() && BadgeCurrent()
    {
      value := JsString("");
      selectedPeriod := "7D";
      comboBoxCoins := [];
      chartData := [];
      priceChange := Percent(0.0);
    }

    /** The badge appears only when the chart has more than one point. */
    predicate ShowsBadge()
      reads this
    {
      |chartData| > 1
    }

    /** Whenever the badge is shown, it reads the change between the chart's first and last prices. */
    predicate BadgeCurrent()
      reads this
    {
      ShowsBadge() ==> priceChange == ChangeOfChart(chartData)
    }

    /**
     * The combobox effect. A malformed record makes the `map` throw inside the effect, where
     * nothing catches it: `escaped` reports that uncaught error, and the list is not set.
     */
    method LoadCoinList(cryptos: Option<seq<JsValue>>) returns (escaped: bool)
      modifies this
      ensures escaped <==> cryptos.Some? && FormatComboCoins(cryptos.value).None?
      ensures cryptos.Some? && FormatComboCoins(cryptos.value).Some? ==>
                comboBoxCoins == FormatComboCoins(cryptos.value).value
      ensures !(cryptos.Some? && FormatComboCoins(cryptos.value).Some?) ==> comboBoxCoins == old(comboBoxCoins)
      ensures value == old(value) && selectedPeriod == old(selectedPeriod)
      ensures chartData == old(chartData) && priceChange == old(priceChange)
      ensures old(BadgeCurrent()) ==> BadgeCurrent()
    {
      escaped := false;
      if cryptos.Some? {
        var formatted := FormatComboCoins(cryptos.value);
        if formatted.None? {
          escaped := true;
          return;
        }
        comboBoxCoins := formatted.value;
      }
    }

    /** The initial-selection effect: the first record's `id` becomes the selected value when present. */
    method SelectFirstCoin(cryptos: Option<seq<JsValue>>)
      modifies this
      ensures cryptos.Some? && |cryptos.value| > 0 && HasKey(cryptos.value[0], "id") ==>
                value == Get(cryptos.value[0], "id")
      ensures !(cryptos.Some? && |cryptos.value| > 0 && HasKey(cryptos.value[0], "id")) ==> value == old(value)
      ensures selectedPeriod == old(selectedPeriod) && comboBoxCoins == old(comboBoxCoins)
      ensures chartData == old(chartData) && priceChange == old(priceChange)
      ensures old(BadgeCurrent()) ==> BadgeCurrent()
    {
      if cryptos.Some? && |cryptos.value| > 0 && HasKey(cryptos.value[0], "id") {
        value := Get(cryptos.value[0], "id");
      }
    }

    /** The period toggle group. */
    method SelectPeriod(item: string)
      modifies this
      ensures selectedPeriod == item
      ensures value == old(value) && comboBoxCoins == old(comboBoxCoins)
      ensures chartData == old(chartData) && priceChange == old(priceChange)
      ensures old(BadgeCurrent()) ==> BadgeCurrent()
    {
      selectedPeriod := item;
    }

    /**
     * The price effect once the fetch settles (`None`: it threw). Runs only for a truthy
     * selected value; the badge value changes only when more than one point survives.
     */
    method ApplyPrices(fetched: Option<seq<PricePoint>>, now: int)
      modifies this
      ensures Truthy(old(value)) && fetched.Some? ==>
                chartData == ToChart(FilterPrices(fetched.value, now, old(selectedPeriod))) &&
                priceChange == NextPriceChange(old(priceChange), chartData)
      ensures !(Truthy(old(value)) && fetched.Some?) ==>
                chartData == old(chartData) && priceChange == old(priceChange)
      ensures value == old(value) && selectedPeriod == old(selectedPeriod) && comboBoxCoins == old(comboBoxCoins)
      ensures Truthy(old(value)) && fetched.Some? ==> BadgeCurrent()
      ensures old(BadgeCurrent()) ==> BadgeCurrent()
    {
      if Truthy(value) && fetched.Some? {
        var window := FilterPrices(fetched.value, now, selectedPeriod);
        chartData := ToChart(window);
        if |chartData| > 1 {
          priceChange := ChangeOfChart(chartData);
        }
      }
    }
  }
}
