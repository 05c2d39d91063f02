/**
 * The coin grid of the "all cryptocurrencies" dialog: the CSV text built by the
 * download button, and the grid state (column filters, sorting, pagination) that the
 * component's handlers and effects change.
 *
 * The CSV cells are written verbatim: there is no quoting, so the output does not follow
 * the quoting rules of section 2 of RFC 4180, and a cell holding "," or a line break
 * shifts the fields of its line.
 */
module DataTable {
  import opened Wrappers
  import opened Text

  // ---------------------------------------------------------------------------
  // CSV export
  // ---------------------------------------------------------------------------

  /** A cell as `Array.prototype.join` sees it: `null`/`undefined`, or the text it prints. */
  datatype Cell = Nullish | Printed(text: string)

  /** A data row: its own keys in `Object.keys` order, each with its value. */
  type Record = seq<(string, Cell)>

  /** `Object.keys(r)`. */
  function Keys(r: Record): seq<string> {
    seq(|r|, i requires 0 <= i < |r| => r[i].0)
  }

  /** `r[key]`: the value stored under `key`, `undefined` when the row has no such key. */
  function Lookup(r: Record, key: string): (c: Cell)
    ensures (forall i :: 0 <= i < |r| ==> r[i].0 != key) ==> c == Nullish
  {
    if r == [] then Nullish
    else if r[0].0 == key then r[0].1
    else Lookup(r[1..], key)
  }

  /** `value ?? ""`: a nullish cell is written as the empty string. */
  function CellText(c: Cell): string {
    match c
    case Nullish => ""
    case Printed(t) => t
  }

  /** `Object.keys(data[0] || {})`: the header list comes from the first row alone. */
  function Headers(data: seq<Record>): seq<string> {
    if data == [] then [] else Keys(data[0])
  }

  /** The cells of one row, one per header, in header order. */
  function RowCells(r: Record, headers: seq<string>): seq<string> {
    seq(|headers|, j requires 0 <= j < |headers| => CellText(Lookup(r, headers[j])))
  }

  /** One data line: the row's cells joined by ",". */
  function RowLine(r: Record, headers: seq<string>): string {
    JoinOn(RowCells(r, headers), ',')
  }

  /** The header line followed by one line per row of `data`. */
  function CsvLines(data: seq<Record>): seq<string> {
    var headers := Headers(data);
    [JoinOn(headers, ',')] + seq(|data|, i requires 0 <= i < |data| => RowLine(data[i], headers))
  }

  /** The downloaded text: all lines joined by "\n" (the click sound the button plays first is not modelled here). */
  function Csv(data: seq<Record>): string {
    JoinOn(CsvLines(data), '\n')
  }

  /** No header and no exported cell contains a line break. */
  predicate NoLineBreaks(data: seq<Record>) {
    var headers := Headers(data);
    (forall j :: 0 <= j < |headers| ==> '\n' !in headers[j])
    && (forall i, j :: 0 <= i < |data| && 0 <= j < |headers| ==> '\n' !in RowCells(data[i], headers)[j])
  }

  /** Exporting no rows yields the empty text. */
  lemma CsvOfNothing()
    ensures Headers([]) == [] && Csv([]) == ""
  {
    assert CsvLines([]) == [""];
  }

  /**
   * The text splits at "\n" into exactly one header line plus one line per row (every row,
   * not a page or a filter result) if and only if no header or cell contains a line break;
   * in that case the lines read back are the header line and the rows' lines, in order.
   */
  lemma CsvLineCount(data: seq<Record>)
    ensures |SplitOn(Csv(data), '\n')| == |data| + 1 <==> NoLineBreaks(data)
    ensures NoLineBreaks(data) ==> SplitOn(Csv(data), '\n') == CsvLines(data)
  {
    var headers := Headers(data);
    var lines := CsvLines(data);
    JoinedPieceCount(lines, '\n');
    JoinOnAvoids(headers, ',', '\n');
    forall i | 0 <= i < |data|
      ensures '\n' !in lines[i + 1] <==> forall j :: 0 <= j < |headers| ==> '\n' !in RowCells(data[i], headers)[j]
    {
      JoinOnAvoids(RowCells(data[i], headers), ',', '\n');
    }
    if NoLineBreaks(data) {
      assert forall k :: 0 <= k < |lines| ==> '\n' !in lines[k] by {
        forall k | 0 <= k < |lines|
          ensures '\n' !in lines[k]
        {
          if k > 0 {
            assert lines[k] == RowLine(data[k - 1], headers);
          }
        }
      }
      SplitJoin(lines, '\n');
    } else {
      if exists j :: 0 <= j < |headers| && '\n' in headers[j] {
        assert '\n' in lines[0];
      } else {
        var i, j :| 0 <= i < |data| && 0 <= j < |headers| && '\n' in RowCells(data[i], headers)[j];
        assert '\n' in lines[i + 1];
      }
    }
  }

  /**
   * With at least one header, a row's line splits at "," into exactly one field per header
   * if and only if none of its cells contains ","; in that case the fields are the cells.
   */
  lemma RowFieldCount(r: Record, headers: seq<string>)
    requires headers != []
    ensures |SplitOn(RowLine(r, headers), ',')| == |headers|
            <==> forall j :: 0 <= j < |headers| ==> ',' !in RowCells(r, headers)[j]
    ensures (forall j :: 0 <= j < |headers| ==> ',' !in RowCells(r, headers)[j])
            ==> SplitOn(RowLine(r, headers), ',') == RowCells(r, headers)
  {
    var cells := RowCells(r, headers);
    JoinedPieceCount(cells, ',');
    if forall j :: 0 <= j < |headers| ==> ',' !in cells[j] {
      SplitJoin(cells, ',');
    }
  }

  /** `r[key]` reads the first entry stored under `key`. */
  lemma {:induction false} LookupFirst(r: Record, k: int)
    requires 0 <= k < |r|
    requires forall j :: 0 <= j < k ==> r[j].0 != r[k].0
    ensures Lookup(r, r[k].0) == r[k].1
  {
    if k > 0 {
      LookupFirst(r[1..], k - 1);
    }
  }

  /** When a row's keys are distinct, exporting it under its own keys gives each of its cells, in order. */
  lemma RowCellsOwnKeys(r: Record)
    requires forall i, j :: 0 <= i < j < |r| ==> r[i].0 != r[j].0
    ensures RowCells(r, Keys(r)) == seq(|r|, k requires 0 <= k < |r| => CellText(r[k].1))
  {
    forall k | 0 <= k < |r|
      ensures Lookup(r, r[k].0) == r[k].1
    {
      LookupFirst(r, k);
    }
  }

  /** An entry appended under another key does not change what `r[key]` reads. */
  lemma {:induction false} LookupSkipsOtherKey(r: Record, k: string, c: Cell, key: string)
    requires k != key
    ensures Lookup(r + [(k, c)], key) == Lookup(r, key)
  {
    if r != [] {
      assert (r + [(k, c)])[1..] == r[1..] + [(k, c)];
      LookupSkipsOtherKey(r[1..], k, c, key);
    }
  }

  /** A key that is not a header never reaches the exported line. */
  lemma ExtraKeyNotExported(r: Record, headers: seq<string>, k: string, c: Cell)
    requires k !in headers
    ensures RowLine(r + [(k, c)], headers) == RowLine(r, headers)
  {
    forall j | 0 <= j < |headers|
      ensures Lookup(r + [(k, c)], headers[j]) == Lookup(r, headers[j])
    {
      LookupSkipsOtherKey(r, k, c, headers[j]);
    }
    assert RowCells(r + [(k, c)], headers) == RowCells(r, headers);
  }

  /** A header the row lacks is written as an empty cell. */
  lemma MissingKeyIsEmpty(r: Record, headers: seq<string>, j: int)
    requires 0 <= j < |headers| && headers[j] !in Keys(r)
    ensures RowCells(r, headers)[j] == ""
  {
    assert forall i :: 0 <= i < |r| ==> r[i].0 == Keys(r)[i];
  }

  // ---------------------------------------------------------------------------
  // Grid state
  // ---------------------------------------------------------------------------

  datatype ColumnFilter = ColumnFilter(id: string, value: string)
  datatype ColumnSort = ColumnSort(id: string, desc: bool)

  /** The page sizes the "Rows per page" selector offers. */
  const PageSizeOptions: seq<nat> := [8, 10, 20, 30, 40, 50]
  const InitialPageSize: nat := 8

  /** `getFilterValue()`: the value of the first filter on column `id`. */
  function FilterValue(filters: seq<ColumnFilter>, id: string): Option<string> {
    if filters == [] then None
    else if filters[0].id == id then Some(filters[0].value)
    else FilterValue(filters[1..], id)
  }

  /** Every filter on column `id` gets `value`; the others stay where and as they are. */
  function ReplaceFilter(filters: seq<ColumnFilter>, id: string, value: string): seq<ColumnFilter> {
    if filters == [] then []
    else (if filters[0].id == id then [ColumnFilter(id, value)] else [filters[0]])
         + ReplaceFilter(filters[1..], id, value)
  }

  /**
   * The grid library's `setFilterValue` for a non-empty value: a column that already has
   * a filter gets its value replaced in place, otherwise the filter is appended.
   */
  function WithFilter(filters: seq<ColumnFilter>, id: string, value: string): seq<ColumnFilter> {
    if FilterValue(filters, id).Some? then ReplaceFilter(filters, id, value)
    else filters + [ColumnFilter(id, value)]
  }

  lemma {:induction false} ReplaceFilterValue(filters: seq<ColumnFilter>, id: string, key: string, value: string)
    ensures FilterValue(ReplaceFilter(filters, id, value), key)
            == if key == id && FilterValue(filters, id).Some? then Some(value) else FilterValue(filters, key)
  {
    if filters != [] {
      ReplaceFilterValue(filters[1..], id, key, value);
    }
  }

  lemma {:induction false} AppendFilterValue(filters: seq<ColumnFilter>, f: ColumnFilter, key: string)
    ensures FilterValue(filters + [f], key)
            == if FilterValue(filters, key).Some? then FilterValue(filters, key)
               else if f.id == key then Some(f.value) else None
  {
    if filters != [] {
      assert (filters + [f])[1..] == filters[1..] + [f];
      AppendFilterValue(filters[1..], f, key);
    } else {
      assert [] + [f] == [f];
    }
  }

  /** After setting a column's filter, that column reads back the new value. */
  lemma FilterValueSet(filters: seq<ColumnFilter>, id: string, value: string)
    ensures FilterValue(WithFilter(filters, id, value), id) == Some(value)
  {
    ReplaceFilterValue(filters, id, id, value);
    AppendFilterValue(filters, ColumnFilter(id, value), id);
  }

  /** Setting one column's filter leaves every other column's filter as it was. */
  lemma FilterValueOthers(filters: seq<ColumnFilter>, id: string, other: string, value: string)
    requires other != id
    ensures FilterValue(WithFilter(filters, id, value), other) == FilterValue(filters, other)
  {
    ReplaceFilterValue(filters, id, other, value);
    AppendFilterValue(filters, ColumnFilter(id, value), other);
  }

  /** Setting a filter keeps the column of the first filter, or makes it first when there was none. */
  lemma FirstFilterColumn(filters: seq<ColumnFilter>, id: string, value: string)
    ensures WithFilter(filters, id, value) != []
    ensures WithFilter(filters, id, value)[0].id == (if filters == [] then id else filters[0].id)
  {
    if filters != [] && FilterValue(filters, id).Some? {
      assert ReplaceFilter(filters, id, value)[0].id == filters[0].id;
    }
  }

  /**
   * The force-sort rule: when the first filter is on "name" and the first sort entry is
   * not, sorting becomes exactly ascending by name; otherwise it is left alone.
   */
  function ForcedSort(filters: seq<ColumnFilter>, sorting: seq<ColumnSort>): seq<ColumnSort> {
    if |filters| > 0 && filters[0].id == "name" && !(|sorting| > 0 && sorting[0].id == "name")
    then [ColumnSort("name", false)]
    else sorting
  }

  /** After the rule a name filter in front always comes with a name sort in front, and nothing else changes. */
  lemma ForcedSortSpec(filters: seq<ColumnFilter>, sorting: seq<ColumnSort>)
    ensures |filters| > 0 && filters[0].id == "name" ==>
              |ForcedSort(filters, sorting)| > 0 && ForcedSort(filters, sorting)[0].id == "name"
    ensures ForcedSort(filters, sorting) == sorting || ForcedSort(filters, sorting) == [ColumnSort("name", false)]
    ensures (|filters| == 0 || filters[0].id != "name") ==> ForcedSort(filters, sorting) == sorting
    ensures ForcedSort(filters, ForcedSort(filters, sorting)) == ForcedSort(filters, sorting)
  {
  }

  /** At mount the filters are empty, so the force-sort effect's only run leaves the sorting alone. */
  lemma ForceSortIdleAtMount(sorting: seq<ColumnSort>)
    ensures ForcedSort([], sorting) == sorting
    ensures ForcedSort([ColumnFilter("name", "bit")], []) == [ColumnSort("name", false)]
  {
  }

  /**
   * The grid library's `setPageSize`: the new page is the one that holds the first row of
   * the current page.
   */
  function ResizedPageIndex(pageIndex: nat, oldSize: nat, newSize: nat): (r: nat)
    requires newSize > 0
    ensures r * newSize <= pageIndex * oldSize < (r + 1) * newSize
  {
    var top := pageIndex * oldSize;
    assert top == (top / newSize) * newSize + top % newSize;
    top / newSize
  }

  /** The grid's filters, sorting and pagination, as the component holds them in state. */
  class GridState {
    var columnFilters: seq<ColumnFilter>
    var sorting: seq<ColumnSort>
    var pageIndex: nat
    var pageSize: nat

    /** The page size is always one the selector offers. */
    predicate Valid()
      reads this
    {
      pageSize in PageSizeOptions
    }

    /** No filters, no sorting, first page of 8 rows. */
    constructor()
      ensures Valid()
      ensures columnFilters == [] && sorting == [] && pageIndex == 0 && pageSize == InitialPageSize
    {
      columnFilters := [];
      sorting := [];
      pageIndex := 0;
      pageSize := InitialPageSize;
    }

    /** The page number shown under the grid counts from 1. */
    function DisplayedPage(): (n: nat)
      reads this
      ensures n >= 1 && n - 1 == pageIndex
    {
      pageIndex + 1
    }

    /**
     * Typing in the search box (after the click sound, not modelled here): the "name" column
     * filter becomes the typed text. The new filter list makes the grid library, which
     * resets the page by default, go back to the first page.
     */
    method TypeSearch(text: string)
      modifies this
      ensures columnFilters == WithFilter(old(columnFilters), "name", text)
      ensures pageIndex == 0
      ensures sorting == old(sorting) && pageSize == old(pageSize)
    {
      columnFilters := WithFilter(columnFilters, "name", text);
      pageIndex := 0;
    }

    /**
     * The prefill effect: an open dialog with a pending search puts it into the "name" filter,
     * which sends the grid back to the first page; otherwise nothing changes.
     */
    method PrefillSearch(openTableDialog: bool, search: string)
      modifies this
      ensures columnFilters == (if |search| > 0 && openTableDialog
                                then WithFilter(old(columnFilters), "name", search)
                                else old(columnFilters))
      ensures pageIndex == (if |search| > 0 && openTableDialog then 0 else old(pageIndex))
      ensures sorting == old(sorting) && pageSize == old(pageSize)
    {
      if |search| > 0 && openTableDialog {
        columnFilters := WithFilter(columnFilters, "name", search);
        pageIndex := 0;
      }
    }

    /**
     * The body of the force-sort effect. The effect depends on the table object alone, which
     * the grid creates once, so the program runs this body only when the grid mounts, while
     * the filters are still empty and it changes nothing. A change of sorting would send the
     * grid back to the first page.
     */
    method ForceNameSort()
      modifies this
      ensures sorting == ForcedSort(columnFilters, old(sorting))
      ensures pageIndex == (if sorting != old(sorting) then 0 else old(pageIndex))
      ensures columnFilters == old(columnFilters) && pageSize == old(pageSize)
    {
      if |columnFilters| > 0 && columnFilters[0].id == "name" && !(|sorting| > 0 && sorting[0].id == "name") {
        sorting := [ColumnSort("name", false)];
        pageIndex := 0;
      }
    }

    /** Choosing a page size: the first row of the current page stays on the shown page. */
    method SetPageSize(size: nat)
      requires Valid() && size in PageSizeOptions
      modifies this
      ensures Valid() && pageSize == size
      ensures pageIndex == ResizedPageIndex(old(pageIndex), old(pageSize), size)
      ensures pageIndex * pageSize <= old(pageIndex) * old(pageSize) < (pageIndex + 1) * pageSize
      ensures columnFilters == old(columnFilters) && sorting == old(sorting)
    {
      pageIndex := ResizedPageIndex(pageIndex, pageSize, size);
      pageSize := size;
    }
  }
}
