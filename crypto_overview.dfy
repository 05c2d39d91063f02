/**
 * The market-overview card: it starts from a fixed fallback summary and replaces it with a
 * summary of the global-market payload once that payload has loaded and validated.
 */
module CryptoOverview {
  import opened Wrappers
  import opened Lists
  import opened JsNumber

  /** The summary the card shows. */
  datatype GlobalData = GlobalData(
    activeCryptos: int,
    totalMarketCap: real,
    totalVolume: real,
    bitCoinDominance: real,
    marketCapChange: real)

  /** The summary shown until a payload has been processed, and after every failed one. */
  const FallbackGlobalData: GlobalData := GlobalData(10523, 2834900000000.0, 129660000000.0, 51.2, 0.04)

  /**
   * The `data` record of a validated payload. Each field may be missing; the per-currency
   * maps are given as their entries in the object's own order.
   */
  datatype MarketData = MarketData(
    totalMarketCap: Option<seq<(string, real)>>,
    totalVolume: Option<seq<(string, real)>>,
    activeCryptocurrencies: Option<int>,
    marketCapPercentage: Option<map<string, real>>,
    marketCapChangePercentage24hUsd: Option<real>)

  /** A validated payload, whose `data` may still be missing. */
  datatype GlobalResponse = GlobalResponse(data: Option<MarketData>)

  /** `Object.values(entries)`. */
  function Values(entries: seq<(string, real)>): (r: seq<real>)
    ensures |r| == |entries|
    ensures forall i :: 0 <= i < |entries| ==> r[i] == entries[i].1
  {
    seq(|entries|, i requires 0 <= i < |entries| => entries[i].1)
  }

  /** `Object.values(m).reduce((sum, value) => sum + value, 0)`, with a missing map defaulting to `{}`. */
  function SumOfValues(m: Option<seq<(string, real)>>): real {
    Reduce(0.0, Values(m.GetOr([])))
  }

  /** The BTC share: 0 when it is missing or 0 (both falsy), otherwise rounded to 2 places. */
  function Dominance(percentages: map<string, real>): real {
    if "btc" in percentages && percentages["btc"] != 0.0 then ToFixed2(percentages["btc"]) else 0.0
  }

  /** The summary of one payload's `data`, with the destructuring defaults applied. */
  function Summarize(d: MarketData): GlobalData {
    GlobalData(
      d.activeCryptocurrencies.GetOr(0),
      SumOfValues(d.totalMarketCap),
      SumOfValues(d.totalVolume),
      Dominance(d.marketCapPercentage.GetOr(map[])),
      d.marketCapChangePercentage24hUsd.GetOr(0.0))
  }

  /**
   * The effect: nothing happens while loading or without a payload; a payload that fails
   * validation, or validates without `data`, leaves the summary as it was.
   */
  function NextGlobalData(current: GlobalData, isLoading: bool, payload: Payload<GlobalResponse>): GlobalData {
    if isLoading then current
    else
      match payload
      case Absent => current
      case Invalid => current
      case Valid(response) =>
        match response.data
        case None => current
        case Some(d) => Summarize(d)
  }

  /** The change badge is green and points up exactly when the change is not negative. */
  predicate IsUp(g: GlobalData) {
    g.marketCapChange >= 0.0
  }

  /** The summary changes only for a loaded, validated payload that has `data`, and then it is that data's summary alone. */
  lemma NextGlobalDataSpec(current: GlobalData, isLoading: bool, payload: Payload<GlobalResponse>)
    ensures NextGlobalData(current, isLoading, payload) != current ==>
              !isLoading && payload.Valid? && payload.value.data.Some?
    ensures !isLoading && payload.Valid? && payload.value.data.Some? ==>
              NextGlobalData(current, isLoading, payload) == Summarize(payload.value.data.value)
    ensures isLoading || !payload.Valid? || payload.value.data.None? ==>
              NextGlobalData(current, isLoading, payload) == current
  {
  }

  /** Before any payload, and after any failure, the card shows the fallback figures, with the change up. */
  lemma FallbackKept(isLoading: bool, payload: Payload<GlobalResponse>)
    requires isLoading || !payload.Valid? || payload.value.data.None?
    ensures NextGlobalData(FallbackGlobalData, isLoading, payload) == FallbackGlobalData
    ensures IsUp(NextGlobalData(FallbackGlobalData, isLoading, payload))
  {
  }

  /** Summing the values of an object: appending an entry adds its value. */
  lemma {:induction false} SumOfValuesAppend(entries: seq<(string, real)>, e: (string, real))
    ensures SumOfValues(Some(entries + [e])) == SumOfValues(Some(entries)) + e.1
  {
    ReduceIsSum(0.0, Values(entries + [e]));
    ReduceIsSum(0.0, Values(entries));
    assert Values(entries + [e]) == Values(entries) + [e.1];
    SumAppend(Values(entries), [e.1]);
  }

  /**
   * The totals add up every currency of the map, not only USD: with non-negative entries each
   * entry's value is at most the total, and a missing map gives 0.
   */
  lemma TotalsCoverAllCurrencies(entries: seq<(string, real)>, k: nat)
    requires forall i :: 0 <= i < |entries| ==> entries[i].1 >= 0.0
    requires k < |entries|
    ensures entries[k].1 <= SumOfValues(Some(entries))
    ensures SumOfValues(None) == 0.0
  {
    ReduceIsSum(0.0, Values(entries));
    var vs := Values(entries);
    assert vs == vs[..k] + [vs[k]] + vs[k + 1..];
    SumAppend(vs[..k] + [vs[k]], vs[k + 1..]);
    SumAppend(vs[..k], [vs[k]]);
    SumNonNegative(vs[..k]);
    SumNonNegative(vs[k + 1..]);
  }

  /**
   * The dominance is the BTC share rounded to the nearest hundredth when that share is present,
   * and 0 when it is missing or 0.
   */
  lemma DominanceSpec(percentages: map<string, real>)
    ensures "btc" !in percentages || percentages["btc"] == 0.0 ==> Dominance(percentages) == 0.0
    ensures "btc" in percentages ==> NearestCent(percentages["btc"], Dominance(percentages))
    ensures "btc" in percentages && percentages["btc"] >= 0.0 ==> Dominance(percentages) >= 0.0
  {
  }

  /** A `data` record with every field missing summarises to all zeroes, shown as up. */
  lemma EmptyDataSummary()
    ensures Summarize(MarketData(None, None, None, None, None)) == GlobalData(0, 0.0, 0.0, 0.0, 0.0)
    ensures IsUp(Summarize(MarketData(None, None, None, None, None)))
  {
  }

  /** The card's state. */
  class OverviewState {
    var globalData: GlobalData

    constructor()
      ensures globalData == FallbackGlobalData
    {
      globalData := FallbackGlobalData;
    }

    /** The effect run whenever the payload or the loading flag changes. */
    method OnGlobalMarketData(isLoading: bool, payload: Payload<GlobalResponse>)
      modifies this
      ensures globalData == NextGlobalData(old(globalData), isLoading, payload)
    {
      if !isLoading && !payload.Absent? {
        if payload.Invalid? {
          return;
        }
        if payload.value.data.None? {
          return;
        }
        var formattedData := Summarize(payload.value.data.value);
        globalData := formattedData;
      }
    }
  }
}
