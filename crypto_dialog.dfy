/**
 * The "all cryptocurrencies" dialog: it rebuilds the grid rows from the validated coin
 * list whenever that list changes, and clears the pending search when it closes.
 */
module CryptoDialog {
  import opened Coins
  import opened Text
  import opened DataTable

  /** A grid row, with its keys in the order the row builder writes them. */
  datatype CryptoRow = CryptoRow(
    name: string,
    icon: string,
    price: real,
    volume: real,
    marketRank: int,
    marketCap: real,
    changePercentage: real,
    highIn24: real,
    lowIn24: real)

  /** The keys of a grid row, in the order the row builder writes them. */
  const RowColumns: seq<string> :=
    ["name", "icon", "price", "volume", "marketRank", "marketCap", "changePercentage", "highIn24", "lowIn24"]

  function ToRow(c: Coin): CryptoRow {
    CryptoRow(c.name, c.image, c.currentPrice, c.totalVolume, c.marketCapRank, c.marketCap,
              c.priceChangePercentage24h, c.high24h, c.low24h)
  }

  /** One row per coin, in the order of the coin list. */
  function BuildRows(coins: seq<Coin>): (rows: seq<CryptoRow>)
    ensures |rows| == |coins|
    ensures forall i :: 0 <= i < |coins| ==> rows[i] == ToRow(coins[i])
  {
    seq(|coins|, i requires 0 <= i < |coins| => ToRow(coins[i]))
  }

  /**
   * A grid row as the CSV export sees it; `show` is the number-to-text conversion
   * `join` applies, which is not modelled.
   */
  function AsRecord(row: CryptoRow, show: real -> string): Record {
    [("name", Printed(row.name)), ("icon", Printed(row.icon)), ("price", Printed(show(row.price))),
     ("volume", Printed(show(row.volume))), ("marketRank", Printed(show(row.marketRank as real))),
     ("marketCap", Printed(show(row.marketCap))), ("changePercentage", Printed(show(row.changePercentage))),
     ("highIn24", Printed(show(row.highIn24))), ("lowIn24", Printed(show(row.lowIn24)))]
  }

  function AsRecords(rows: seq<CryptoRow>, show: real -> string): seq<Record> {
    seq(|rows|, i requires 0 <= i < |rows| => AsRecord(rows[i], show))
  }

  /** The builder's keys are pairwise distinct. */
  lemma RowColumnsDistinct()
    ensures forall i, j :: 0 <= i < j < |RowColumns| ==> RowColumns[i] != RowColumns[j]
  {
  }

  /** Every field of a coin lands in its own column, in the builder's key order. */
  lemma RowCellsOfCoin(c: Coin, show: real -> string)
    ensures RowCells(AsRecord(ToRow(c), show), RowColumns)
         == [c.name, c.image, show(c.currentPrice), show(c.totalVolume), show(c.marketCapRank as real),
             show(c.marketCap), show(c.priceChangePercentage24h), show(c.high24h), show(c.low24h)]
  {
    var r := AsRecord(ToRow(c), show);
    AsRecordKeys(ToRow(c), show);
    RowColumnsDistinct();
    assert forall k :: 0 <= k < |r| ==> r[k].0 == RowColumns[k];
    RowCellsOwnKeys(r);
  }

  /** Every grid row exports the builder's nine keys, in order. */
  lemma AsRecordKeys(row: CryptoRow, show: real -> string)
    ensures Keys(AsRecord(row, show)) == RowColumns
  {
  }

  /**
   * Exporting the dialog's rows: a non-empty list gives the builder's nine column names as
   * the header line and, for coin `i`, that coin's row as line `i + 1`; no coins give "".
   */
  lemma DialogCsv(coins: seq<Coin>, show: real -> string)
    ensures coins == [] ==> Csv(AsRecords(BuildRows(coins), show)) == ""
    ensures coins != [] ==> Headers(AsRecords(BuildRows(coins), show)) == RowColumns
    ensures |CsvLines(AsRecords(BuildRows(coins), show))| == |coins| + 1
    ensures coins != [] ==>
              forall i :: 0 <= i < |coins| ==>
                CsvLines(AsRecords(BuildRows(coins), show))[i + 1] == RowLine(AsRecord(ToRow(coins[i]), show), RowColumns)
  {
    var data := AsRecords(BuildRows(coins), show);
    if coins == [] {
      assert data == [];
      CsvOfNothing();
    } else {
      AsRecordKeys(ToRow(coins[0]), show);
      assert data[0] == AsRecord(ToRow(coins[0]), show);
    }
  }

  /** The dialog's own state: the grid rows, whether it is open, and the pending search. */
  class DialogState {
    var cryptoData: seq<CryptoRow>
    var openTableDialog: bool
    var search: string

    /** No rows until the coin list arrives; the open flag and search come from the app store. */
    constructor(openTableDialog: bool, search: string)
      ensures cryptoData == [] && this.openTableDialog == openTableDialog && this.search == search
    {
      cryptoData := [];
      this.openTableDialog := openTableDialog;
      this.search := search;
    }

    /** The coin list changed: the rows are rebuilt from it alone, whatever they were before. */
    method OnCoinsChanged(allCoins: seq<Coin>)
      modifies this
      ensures cryptoData == BuildRows(allCoins)
      ensures openTableDialog == old(openTableDialog) && search == old(search)
    {
      cryptoData := BuildRows(allCoins);
    }

    /** Opening or closing the dialog; closing it clears the pending search. */
    method SetOpen(open: bool)
      modifies this
      ensures openTableDialog == open
      ensures search == (if open then old(search) else "")
      ensures cryptoData == old(cryptoData)
    {
      openTableDialog := open;
      if !openTableDialog {
        search := "";
      }
    }
  }
}
