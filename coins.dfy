/**
 * A coin record of the market listing once it has passed schema validation.
 * The schema itself is not part of this model: a payload is either absent, rejected
 * by validation, or a list of these records.
 */
module Coins {

  datatype Coin = Coin(
    id: string,
    symbol: string,
    name: string,
    image: string,
    currentPrice: real,
    marketCap: real,
    marketCapRank: int,
    totalVolume: real,
    high24h: real,
    low24h: real,
    priceChangePercentage24h: real)
}
