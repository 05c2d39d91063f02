/**
 * The market-value table: it validates the coin listing, keeps the whole validated list for
 * the "all cryptocurrencies" dialog, and shows the first five coins as rows.
 */
module MarketTable {
  import opened Wrappers
  import opened Lists
  import opened JsNumber
  import opened Coins

  /**
   * A row of the top-five table. Prices and volumes are kept as numbers (their "$" and
   * locale text is not modelled); `change` is the 24-hour change rounded to two places.
   */
  datatype TopCurrency = TopCurrency(
    name: string,
    price: real,
    change: real,
    volume: real,
    marketRank: int,
    isPositive: bool,
    icon: string)

  function ToTopCurrency(c: Coin): TopCurrency {
    TopCurrency(c.name, c.currentPrice, ToFixed2(c.priceChangePercentage24h), c.totalVolume,
                c.marketCapRank, c.priceChangePercentage24h >= 0.0, c.image)
  }

  /** `slice(0, 5).map(...)`. */
  function TopFive(coins: seq<Coin>): seq<TopCurrency> {
    var head := Take(coins, 5);
    seq(|head|, i requires 0 <= i < |head| => ToTopCurrency(head[i]))
  }

  /**
   * The table shows the first `min(5, n)` coins in order, each with its own name, price,
   * volume, rank and icon, the change rounded to the nearest hundredth, and "positive" exactly when the
   * change is not negative.
   */
  lemma TopFiveSpec(coins: seq<Coin>)
    ensures |TopFive(coins)| == Min(5, |coins|)
    ensures forall i :: 0 <= i < Min(5, |coins|) ==>
              var row := TopFive(coins)[i];
              && row.name == coins[i].name && row.price == coins[i].currentPrice
              && row.volume == coins[i].totalVolume && row.marketRank == coins[i].marketCapRank
              && row.icon == coins[i].image
              && NearestCent(coins[i].priceChangePercentage24h, row.change)
              && (row.isPositive <==> coins[i].priceChangePercentage24h >= 0.0)
    ensures forall other: seq<Coin> :: Take(other, 5) == Take(coins, 5) ==> TopFive(other) == TopFive(coins)
  {
  }

  /** The table's state: the rows it shows and the full list it hands to the dialog. */
  class MarketTableState {
    var topFiveCurrencies: seq<TopCurrency>
    var allCoins: seq<Coin>

    /** The rows shown are always the first five of the list the dialog gets. */
    predicate Consistent()
      reads this
    {
      topFiveCurrencies == TopFive(allCoins)
    }

    constructor()
      ensures topFiveCurrencies == [] && allCoins == []
      ensures Consistent()
    {
      topFiveCurrencies := [];
      allCoins := [];
    }

    /** The effect: both pieces of state are set together, and only from a validated listing. */
    method OnAllCoinsData(allCoinsData: Payload<seq<Coin>>)
      modifies this
      ensures allCoinsData.Valid? ==> allCoins == allCoinsData.value && topFiveCurrencies == TopFive(allCoinsData.value)
      ensures !allCoinsData.Valid? ==> allCoins == old(allCoins) && topFiveCurrencies == old(topFiveCurrencies)
      ensures old(Consistent()) ==> Consistent()
    {
      if !allCoinsData.Absent? {
        if allCoinsData.Invalid? {
          return;
        }
        var validateSchema := allCoinsData.value;
        var mappedData := TopFive(validateSchema);
        allCoins := validateSchema;
        topFiveCurrencies := mappedData;
      }
    }
  }
}
