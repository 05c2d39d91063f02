/**
 * The three price cards at the top of the dashboard: the first three entries of the coin
 * listing, each checked for its fields at run time and formatted into a card; one bad entry
 * aborts the batch and the cards keep what they showed before.
 */
module PriceCards {
  import opened Wrappers
  import opened Lists
  import opened Json
  import opened JsNumber

  /** The icon drawn on a card. */
  datatype CardIcon = BitcoinIcon | EthereumIcon | TetherIcon

  /**
   * A formatted card. The identity fields are the entry's values as they were (the source only
   * casts them); `change` is the 24-hour change rounded to two places, without its "%" suffix.
   */
  datatype PriceCard = PriceCard(
    id: JsValue,
    symbol: JsValue,
    name: JsValue,
    price: JsValue,
    change: real,
    changeDirection: string,
    icon: CardIcon,
    bgColor: string)

  /** The run-time shape check: a non-null object with each of the five keys the card reads. */
  predicate HasRequiredKeys(coin: JsValue) {
    HasKey(coin, "id") && HasKey(coin, "symbol") && HasKey(coin, "current_price")
    && HasKey(coin, "name") && HasKey(coin, "price_change_percentage_24h")
  }

  /** Icon by coin id: Bitcoin and Ethereum have their own, everything else the Tether one. */
  function IconFor(id: JsValue): CardIcon {
    if id == JsString("bitcoin") then BitcoinIcon
    else if id == JsString("ethereum") then EthereumIcon
    else TetherIcon
  }

  /** Background by coin id, matching `IconFor`. */
  function BgColorFor(id: JsValue): string {
    if id == JsString("bitcoin") then "bg-gradient-to-br from-orange-100 to-orange-50"
    else if id == JsString("ethereum") then "bg-gradient-to-br from-blue-100 to-blue-50"
    else "bg-gradient-to-br from-gray-100 to-gray-50"
  }

  /**
   * The `map` callback: an entry without one of the keys throws "Invalid API response
   * structure.", and so does one whose change is not a number, since `toFixed` is then missing
   * (or read from `null`).
   */
  function FormatCard(coin: JsValue): Option<PriceCard> {
    if !HasRequiredKeys(coin) then None
    else
      var change := coin.fields["price_change_percentage_24h"];
      if !change.JsNumber? then None
      else
        Some(PriceCard(
          coin.fields["id"], coin.fields["symbol"], coin.fields["name"], coin.fields["current_price"],
          ToFixed2(change.n),
          if change.n >= 0.0 then "up" else "down",
          IconFor(coin.fields["id"]),
          BgColorFor(coin.fields["id"])))
  }

  /** `slice(0, 3).map(...)`: a batch of at most three cards, or nothing when one entry throws. */
  function FormatCards(cryptocurrencies: seq<JsValue>): Option<seq<PriceCard>> {
    MapAll(Take(cryptocurrencies, 3), FormatCard)
  }

  /** An entry the card formatter accepts: an object with every required key and a numeric change. */
  predicate WellFormed(coin: JsValue) {
    HasRequiredKeys(coin) && coin.fields["price_change_percentage_24h"].JsNumber?
  }

  /** One card: what it shows and when it exists. */
  lemma FormatCardSpec(coin: JsValue)
    ensures FormatCard(coin).Some? <==> WellFormed(coin)
    ensures WellFormed(coin) ==>
              var card := FormatCard(coin).value;
              var pct := coin.fields["price_change_percentage_24h"].n;
              && card.id == Get(coin, "id") && card.symbol == Get(coin, "symbol")
              && card.name == Get(coin, "name") && card.price == Get(coin, "current_price")
              && NearestCent(pct, card.change)
              && (card.changeDirection == "up" <==> pct >= 0.0)
              && (card.changeDirection == "down" <==> pct < 0.0)
  {
  }

  /** Bitcoin is orange, Ethereum blue, and every other id gray with the Tether icon. */
  lemma ThemeSpec(id: JsValue)
    ensures IconFor(id) == BitcoinIcon <==> id == JsString("bitcoin")
    ensures IconFor(id) == EthereumIcon <==> id == JsString("ethereum")
    ensures IconFor(id) == BitcoinIcon ==> BgColorFor(id) == "bg-gradient-to-br from-orange-100 to-orange-50"
    ensures IconFor(id) == EthereumIcon ==> BgColorFor(id) == "bg-gradient-to-br from-blue-100 to-blue-50"
    ensures IconFor(id) == TetherIcon ==> BgColorFor(id) == "bg-gradient-to-br from-gray-100 to-gray-50"
  {
  }

  /**
   * The batch succeeds exactly when each of the first three entries is well formed, and then
   * holds one card per entry, in order; entries after the third are never looked at.
   */
  lemma FormatCardsSpec(cryptocurrencies: seq<JsValue>)
    ensures FormatCards(cryptocurrencies).Some? <==>
              forall i :: 0 <= i < Min(3, |cryptocurrencies|) ==> WellFormed(cryptocurrencies[i])
    ensures FormatCards(cryptocurrencies).Some? ==>
              |FormatCards(cryptocurrencies).value| == Min(3, |cryptocurrencies|) &&
              forall i :: 0 <= i < Min(3, |cryptocurrencies|) ==>
                Some(FormatCards(cryptocurrencies).value[i]) == FormatCard(cryptocurrencies[i])
    ensures forall other: seq<JsValue> :: Take(other, 3) == Take(cryptocurrencies, 3) ==>
              FormatCards(other) == FormatCards(cryptocurrencies)
  {
    var head := Take(cryptocurrencies, 3);
    forall i | 0 <= i < |head|
      ensures FormatCard(head[i]).Some? <==> WellFormed(cryptocurrencies[i])
    {
      FormatCardSpec(head[i]);
    }
  }

  /** The cards' state. */
  class PriceCardsState {
    var threeTopCurrencies: seq<PriceCard>

    constructor()
      ensures threeTopCurrencies == []
    {
      threeTopCurrencies := [];
    }

    /** The effect: the cards are replaced only by a batch that formatted without throwing. */
    method OnCryptocurrencies(cryptocurrencies: Option<seq<JsValue>>)
      modifies this
      ensures cryptocurrencies.Some? && FormatCards(cryptocurrencies.value).Some? ==>
                threeTopCurrencies == FormatCards(cryptocurrencies.value).value
      ensures cryptocurrencies.None? || FormatCards(cryptocurrencies.value).None? ==>
                threeTopCurrencies == old(threeTopCurrencies)
      ensures |threeTopCurrencies| <= 3 || threeTopCurrencies == old(threeTopCurrencies)
    {
      if cryptocurrencies.Some? {
        var formatData := FormatCards(cryptocurrencies.value);
        if formatData.None? {
          return;
        }
        threeTopCurrencies := formatData.value;
      }
    }
  }
}
