/**
 * The market-highlights card: the names of the first three categories of the category
 * listing, the total 24-hour exchange volume (in BTC) over all exchanges, and the
 * fallbacks shown while either is missing.
 */
module MarketHighlights {
  import opened Wrappers
  import opened Lists
  import opened Json

  datatype Category = Category(name: string)

  /** The categories shown when none have been extracted. */
  const FallbackCategories: seq<Category> := [Category("DeFi"), Category("NFT"), Category("Metaverse")]

  /** The total shown when none has been computed, or when it is 0. */
  const FallbackTotalPairs: real := 1800000.0

  /** `isCategory`: a non-null object whose `name` is a string. */
  predicate IsCategory(v: JsValue) {
    v.JsObject? && "name" in v.fields && v.fields["name"].JsString?
  }

  /** The `map` callback: `{ name }` for a category, `null` for anything else. */
  function AsCategory(v: JsValue): (r: Option<Category>)
    ensures r.Some? <==> IsCategory(v)
    ensures r.Some? ==> r.value.name == v.fields["name"].s
  {
    if IsCategory(v) then Some(Category(v.fields["name"].s)) else None
  }

  /** The `filter` that drops the `null` entries. */
  function DropNulls(xs: seq<Option<Category>>): seq<Category> {
    if xs == [] then []
    else (if xs[0].Some? then [xs[0].value] else []) + DropNulls(xs[1..])
  }

  /** The category effect's pipeline: `slice(0, 3)`, then `map`, then `filter`. */
  function ExtractCategories(data: seq<JsValue>): seq<Category> {
    var head := Take(data, 3);
    DropNulls(seq(|head|, i requires 0 <= i < |head| => AsCategory(head[i])))
  }

  /** The name of a value known to be a category. */
  function NameOf(v: JsValue): Category
    requires IsCategory(v)
  {
    Category(v.fields["name"].s)
  }

  /** Reference definition: the names of the categories among `xs`, in order. */
  function CategoryNames(xs: seq<JsValue>): (r: seq<Category>)
    ensures |r| == |Filter(xs, IsCategory)|
  {
    var cs := Filter(xs, IsCategory);
    FilterAllPass(xs);
    seq(|cs|, i requires 0 <= i < |cs| => NameOf(cs[i]))
  }

  /** Everything `Filter` keeps passes its predicate. */
  lemma {:induction false} FilterAllPass(xs: seq<JsValue>)
    ensures forall i :: 0 <= i < |Filter(xs, IsCategory)| ==> IsCategory(Filter(xs, IsCategory)[i])
  {
    if xs != [] {
      FilterAllPass(xs[1..]);
    }
  }

  /** Mapping to `{ name }`-or-`null` and then dropping the `null`s keeps exactly the categories' names. */
  lemma {:induction false} MapThenDrop(xs: seq<JsValue>)
    ensures DropNulls(seq(|xs|, i requires 0 <= i < |xs| => AsCategory(xs[i]))) == CategoryNames(xs)
  {
    var mapped := seq(|xs|, i requires 0 <= i < |xs| => AsCategory(xs[i]));
    if xs != [] {
      MapThenDrop(xs[1..]);
      assert mapped[1..] == seq(|xs[1..]|, i requires 0 <= i < |xs[1..]| => AsCategory(xs[1..][i]));
      FilterAllPass(xs[1..]);
      var rest := Filter(xs[1..], IsCategory);
      if IsCategory(xs[0]) {
        assert Filter(xs, IsCategory) == [xs[0]] + rest;
        assert CategoryNames(xs) == [NameOf(xs[0])] + CategoryNames(xs[1..]);
      } else {
        assert Filter(xs, IsCategory) == rest;
      }
    }
  }

  /**
   * The extracted list is the names of the categories among the first three entries,
   * in order; so it never holds more than three, and entries after the third never matter.
   */
  lemma ExtractCategoriesSpec(data: seq<JsValue>)
    ensures ExtractCategories(data) == CategoryNames(Take(data, 3))
    ensures |ExtractCategories(data)| <= 3
    ensures forall other: seq<JsValue> :: Take(other, 3) == Take(data, 3) ==> ExtractCategories(other) == ExtractCategories(data)
  {
    MapThenDrop(Take(data, 3));
    FilterShorter(Take(data, 3));
  }

  lemma {:induction false} FilterShorter(xs: seq<JsValue>)
    ensures |Filter(xs, IsCategory)| <= |xs|
  {
    if xs != [] {
      FilterShorter(xs[1..]);
    }
  }

  /** When each of the first three entries is a category, every one of them is shown, in order. */
  lemma AllCategoriesKept(data: seq<JsValue>)
    requires forall i :: 0 <= i < Min(3, |data|) ==> IsCategory(data[i])
    ensures |ExtractCategories(data)| == Min(3, |data|)
    ensures forall i :: 0 <= i < Min(3, |data|) ==> IsCategory(data[i]) && ExtractCategories(data)[i] == NameOf(data[i])
  {
    ExtractCategoriesSpec(data);
    FilterKeepsAll(Take(data, 3), IsCategory);
  }

  /** The exchange listing as the hook delivers it: not yet there, something other than an array, or the 24-hour BTC volumes. */
  datatype ExchangesData = NoExchanges | NotAnArray | ExchangeVolumes(volumes: seq<real>)

  /** `reduce((sum, exchange) => sum + exchange.trade_volume_24h_btc, 0)`. */
  function TotalVolume(volumes: seq<real>): (r: real)
    ensures r == Sum(volumes)
  {
    ReduceIsSum(0.0, volumes);
    Reduce(0.0, volumes)
  }

  /** `categories || fallbackCategories`: an array, even an empty one, is truthy. */
  function ShownCategories(categories: Option<seq<Category>>): (r: seq<Category>)
    ensures categories.None? ==> r == FallbackCategories
    ensures categories.Some? ==> r == categories.value
  {
    categories.GetOr(FallbackCategories)
  }

  /** `totalPairs || 1800000`: both `null` and 0 are falsy. */
  function ShownTotalPairs(totalPairs: Option<real>): (r: real)
    ensures totalPairs.None? || totalPairs.value == 0.0 ==> r == FallbackTotalPairs
    ensures totalPairs.Some? && totalPairs.value != 0.0 ==> r == totalPairs.value
  {
    if totalPairs.None? || totalPairs.value == 0.0 then FallbackTotalPairs else totalPairs.value
  }

  /** An empty exchange list sums to 0, which is falsy, so the fallback total is shown. */
  lemma EmptyExchangesShowFallback()
    ensures ShownTotalPairs(Some(TotalVolume([]))) == FallbackTotalPairs
  {
  }

  /** The card's own state: both start as `null`. */
  class HighlightsState {
    var categories: Option<seq<Category>>
    var totalPairs: Option<real>

    constructor()
      ensures categories == None && totalPairs == None
    {
      categories := None;
      totalPairs := None;
    }

    /** The category effect: runs only when the listing is there (an array is truthy even when empty). */
    method OnCategoriesData(allCategoriesData: Option<seq<JsValue>>)
      modifies this
      ensures allCategoriesData.Some? ==> categories == Some(ExtractCategories(allCategoriesData.value))
      ensures allCategoriesData.None? ==> categories == old(categories)
      ensures totalPairs == old(totalPairs)
    {
      if allCategoriesData.Some? {
        var formattedData := ExtractCategories(allCategoriesData.value);
        categories := Some(formattedData);
      }
    }

    /** The exchanges effect: the total is computed and stored only when the data is an array. */
    method OnExchangesData(allExchanges: ExchangesData)
      modifies this
      ensures allExchanges.ExchangeVolumes? ==> totalPairs == Some(Sum(allExchanges.volumes))
      ensures !allExchanges.ExchangeVolumes? ==> totalPairs == old(totalPairs)
      ensures categories == old(categories)
    {
      if allExchanges.ExchangeVolumes? {
        totalPairs := Some(TotalVolume(allExchanges.volumes));
      }
    }
  }
}
