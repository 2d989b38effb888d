/**
 * The stock table (src/components/dashboard/StockTable.jsx): its load of the
 * stock list into the dashboard state, the single-column sort state machine,
 * the comparator that orders the visible rows, and the header and cell
 * selection by visible column.
 */
module StockTable {
  import opened Common
  import opened Records
  import DashboardContext
  import StockService
  import NumberFormat

  // ---------------------------------------------------------------------
  // JavaScript's `>` on the values of one column.

  /** Code-point lexicographic order on strings: a proper prefix comes first. */
  predicate LexLess(a: string, b: string) {
    if a == [] then b != []
    else if b == [] then false
    else if a[0] != b[0] then a[0] < b[0]
    else LexLess(a[1..], b[1..])
  }

  lemma {:induction false} LexIrreflexive(a: string)
    ensures !LexLess(a, a)
  {
    if a != [] {
      LexIrreflexive(a[1..]);
    }
  }

  lemma {:induction false} LexAsymmetric(a: string, b: string)
    requires LexLess(a, b)
    ensures !LexLess(b, a)
  {
    if a != [] && b != [] && a[0] == b[0] {
      LexAsymmetric(a[1..], b[1..]);
    }
  }

  lemma {:induction false} LexTransitive(a: string, b: string, c: string)
    requires LexLess(a, b) && LexLess(b, c)
    ensures LexLess(a, c)
  {
    if a != [] && a[0] == b[0] && b[0] == c[0] {
      LexTransitive(a[1..], b[1..], c[1..]);
    }
  }

  lemma {:induction false} LexTotal(a: string, b: string)
    requires a != b
    ensures LexLess(a, b) || LexLess(b, a)
  {
    if a != [] && b != [] && a[0] == b[0] {
      assert a == [a[0]] + a[1..] && b == [b[0]] + b[1..];
      LexTotal(a[1..], b[1..]);
    }
  }

  /**
   * `x > y` for two values of the same column: numbers by value, strings by
   * code point. Values of different kinds never occur in one column
   * (`FieldKindPerColumn`), and compare as not greater.
   */
  predicate Greater(x: Cell, y: Cell) {
    match (x, y)
    case (Num(m), Num(n)) => m > n
    case (Text(s), Text(t)) => LexLess(t, s)
    case _ => false
  }

  lemma GreaterAsymmetric(x: Cell, y: Cell)
    requires Greater(x, y)
    ensures !Greater(y, x)
  {
    if x.Text? {
      LexAsymmetric(y.t, x.t);
    }
  }

  /** Not-greater is transitive on values of one kind. */
  lemma GreaterNegTransitive(x: Cell, y: Cell, z: Cell)
    requires x.Num? == y.Num? && y.Num? == z.Num?
    requires !Greater(x, y) && !Greater(y, z)
    ensures !Greater(x, z)
  {
    if x.Text? && x.t != y.t && y.t != z.t {
      LexTotal(x.t, y.t);
      LexTotal(y.t, z.t);
      if LexLess(z.t, x.t) {
        LexTransitive(x.t, y.t, z.t);
        LexAsymmetric(x.t, z.t);
      }
    }
  }

  // ---------------------------------------------------------------------
  // The comparator and the order it produces.

  /** The comparator of `sortedStocks`, returning -1, 0 or 1 as the source does. */
  function Compare(column: Option<string>, dir: Direction, a: Stock, b: Stock): (r: int)
    ensures r in {-1, 0, 1}
    ensures r == 0 <==> !Truthy(column)
  {
    if !Truthy(column) then 0
    else
      var aVal, bVal := Field(a, column.value), Field(b, column.value);
      if aVal.None? then 1
      else if bVal.None? then -1
      else if dir == Asc then (if Greater(aVal.value, bVal.value) then 1 else -1)
      else (if Greater(bVal.value, aVal.value) then 1 else -1)
  }

  /**
   * `a` may come before `b`: a row with a missing key is never followed by one
   * with a present key, and present keys are non-decreasing for `Asc` and
   * non-increasing for `Desc`. Without a sort column every order is allowed.
   */
  predicate InOrder(column: Option<string>, dir: Direction, a: Stock, b: Stock) {
    !Truthy(column) ||
    var ka, kb := Field(a, column.value), Field(b, column.value);
    (ka.None? ==> kb.None?) &&
    (ka.Some? && kb.Some? ==>
      if dir == Asc then !Greater(ka.value, kb.value) else !Greater(kb.value, ka.value))
  }

  predicate SortedBy(rows: seq<Stock>, column: Option<string>, dir: Direction) {
    forall i, j :: 0 <= i < j < |rows| ==> InOrder(column, dir, rows[i], rows[j])
  }

  /**
   * The comparator agrees with the order: a non-positive result lets `a` come
   * first, a positive one lets `b` come first.
   */
  lemma ComparatorAgreesWithOrder(column: Option<string>, dir: Direction, a: Stock, b: Stock)
    ensures Compare(column, dir, a, b) <= 0 ==> InOrder(column, dir, a, b)
    ensures Compare(column, dir, a, b) > 0 ==> InOrder(column, dir, b, a)
  {
    if Truthy(column) {
      var aVal, bVal := Field(a, column.value), Field(b, column.value);
      if aVal.Some? && bVal.Some? {
        if Greater(aVal.value, bVal.value) { GreaterAsymmetric(aVal.value, bVal.value); }
        if Greater(bVal.value, aVal.value) { GreaterAsymmetric(bVal.value, aVal.value); }
      }
    }
  }

  lemma InOrderTransitive(column: Option<string>, dir: Direction, a: Stock, b: Stock, c: Stock)
    requires InOrder(column, dir, a, b) && InOrder(column, dir, b, c)
    ensures InOrder(column, dir, a, c)
  {
    if Truthy(column) {
      var ka, kb, kc := Field(a, column.value), Field(b, column.value), Field(c, column.value);
      if ka.Some? && kc.Some? {
        FieldKindPerColumn(a, b, column.value);
        FieldKindPerColumn(b, c, column.value);
        if dir == Asc {
          GreaterNegTransitive(ka.value, kb.value, kc.value);
        } else {
          GreaterNegTransitive(kc.value, kb.value, ka.value);
        }
      }
    }
  }

  /** One insertion step: `x` goes before the first row it does not compare greater than. */
  function Insert(x: Stock, rows: seq<Stock>, column: Option<string>, dir: Direction): (r: seq<Stock>)
    ensures multiset(r) == multiset(rows) + multiset{x}
  {
    if rows == [] || Compare(column, dir, x, rows[0]) <= 0 then [x] + rows
    else
      assert rows == [rows[0]] + rows[1..];
      [rows[0]] + Insert(x, rows[1..], column, dir)
  }

  /** A row in order with every row of a sorted list can be put in front of it. */
  lemma ConsSorted(h: Stock, rows: seq<Stock>, column: Option<string>, dir: Direction)
    requires SortedBy(rows, column, dir)
    requires forall y :: y in rows ==> InOrder(column, dir, h, y)
    ensures SortedBy([h] + rows, column, dir)
  {
    var r := [h] + rows;
    forall i, j | 0 <= i < j < |r| ensures InOrder(column, dir, r[i], r[j]) {
      assert r[j] == rows[j - 1];
      if i > 0 { assert r[i] == rows[i - 1]; }
    }
  }

  /** Dropping the first row keeps a list sorted. */
  lemma TailSorted(rows: seq<Stock>, column: Option<string>, dir: Direction)
    requires rows != [] && SortedBy(rows, column, dir)
    ensures SortedBy(rows[1..], column, dir)
  {
    var tail := rows[1..];
    forall i, j | 0 <= i < j < |tail| ensures InOrder(column, dir, tail[i], tail[j]) {
      assert tail[i] == rows[i + 1] && tail[j] == rows[j + 1];
    }
  }

  lemma {:induction false} InsertSorted(x: Stock, rows: seq<Stock>, column: Option<string>, dir: Direction)
    requires SortedBy(rows, column, dir)
    ensures SortedBy(Insert(x, rows, column, dir), column, dir)
  {
    if rows == [] {
    } else if Compare(column, dir, x, rows[0]) <= 0 {
      ComparatorAgreesWithOrder(column, dir, x, rows[0]);
      forall y | y in rows ensures InOrder(column, dir, x, y) {
        var j :| 0 <= j < |rows| && rows[j] == y;
        if j > 0 { InOrderTransitive(column, dir, x, rows[0], rows[j]); }
      }
      ConsSorted(x, rows, column, dir);
    } else {
      ComparatorAgreesWithOrder(column, dir, x, rows[0]);
      var tail := rows[1..];
      TailSorted(rows, column, dir);
      InsertSorted(x, tail, column, dir);
      var rest := Insert(x, tail, column, dir);
      forall y | y in rest ensures InOrder(column, dir, rows[0], y) {
        assert y in multiset(rest);
        if y != x {
          assert y in multiset(tail);
          var j :| 0 <= j < |tail| && tail[j] == y;
          assert rows[j + 1] == y;
        }
      }
      ConsSorted(rows[0], rest, column, dir);
    }
  }

  /**
   * `[...filteredStocks].sort(comparator)`: a permutation of the rows, ordered
   * by the sort column with missing keys last in both directions.
   */
  function SortRows(rows: seq<Stock>, column: Option<string>, dir: Direction): (r: seq<Stock>)
    ensures multiset(r) == multiset(rows)
    ensures SortedBy(r, column, dir)
  {
    if rows == [] then []
    else
      assert rows == [rows[0]] + rows[1..];
      var rest := SortRows(rows[1..], column, dir);
      InsertSorted(rows[0], rest, column, dir);
      Insert(rows[0], rest, column, dir)
  }

  /** Without a sort column the comparator returns 0 and the rows keep their order. */
  lemma {:induction false} NoColumnKeepsOrder(rows: seq<Stock>, column: Option<string>, dir: Direction)
    requires !Truthy(column)
    ensures SortRows(rows, column, dir) == rows
  {
    if rows != [] {
      NoColumnKeepsOrder(rows[1..], column, dir);
      assert rows == [rows[0]] + rows[1..];
    }
  }

  // ---------------------------------------------------------------------
  // The sort state machine.

  function Flip(dir: Direction): Direction {
    if dir == Asc then Desc else Asc
  }

  /**
   * `handleSort(columnKey)`: a click on the current column flips the
   * direction; a click on another column selects it in ascending order.
   */
  function NextSort(column: Option<string>, dir: Direction, key: string): (r: (Option<string>, Direction))
    ensures r.0 == Some(key)
    ensures column == Some(key) ==> r.1 != dir
    ensures column != Some(key) ==> r.1 == Asc
  {
    if column == Some(key) then (column, Flip(dir)) else (Some(key), Asc)
  }

  /** Two clicks on the same header: the second always flips what the first chose. */
  lemma ClickTwice(column: Option<string>, dir: Direction, key: string)
    ensures var first := NextSort(column, dir, key);
            var second := NextSort(first.0, first.1, key);
            second.0 == Some(key) && second.1 == Flip(first.1) &&
            (column == Some(key) ==> second.1 == dir) &&
            (column != Some(key) ==> second.1 == Desc)
  {
  }

  // ---------------------------------------------------------------------
  // The stock-list response.

  /** `response.data`: the rows themselves or a page object with optional `items`. */
  datatype ListData = Rows(rows: seq<Stock>) | Paged(items: Option<seq<Stock>>)

  datatype ListResponse = ListResponse(code: int, data: Option<ListData>)

  datatype LoadResult = Loaded(rows: seq<Stock>) | Failed(message: Option<string>)

  const NoData: string := "No stock data available"
  const LoadFailed: string := "Failed to load stock data"

  /** The items of the data: the array itself, else `data.items` (absent as none). */
  function Items(data: ListData): seq<Stock> {
    match data
    case Rows(rows) => rows
    case Paged(items) => if items.Some? then items.value else []
  }

  /** The outcome of `loadStocks` for one outcome of the list request. */
  function LoadResultOf(response: CallOutcome<ListResponse>): (r: LoadResult)
    ensures r.Loaded? <==>
      response.Returned? && response.value.code == 200 && response.value.data.Some?
      && |Items(response.value.data.value)| > 0
    ensures r.Loaded? ==> r.rows == Items(response.value.data.value)
    ensures (response.Returned? && response.value.code == 200 && response.value.data.Some?
             && Items(response.value.data.value) == []) ==> r == Failed(Some(NoData))
    ensures response.Returned? && (response.value.code != 200 || response.value.data.None?)
      ==> r == Failed(Some(LoadFailed))
    ensures response.Threw? ==> r == Failed(response.message)
  {
    match response
    case Threw(message) => Failed(message)
    case Returned(resp) =>
      if resp.code == 200 && resp.data.Some? then
        var items := Items(resp.data.value);
        if |items| > 0 then Loaded(items) else Failed(Some(NoData))
      else Failed(Some(LoadFailed))
  }

  const RequestLimit: int := 200

  // ---------------------------------------------------------------------
  // What the table shows.

  /** The header caption of each column key. */
  function Caption(key: string): string {
    if key == SymbolKey then "代码"
    else if key == StockNameKey then "名称"
    else if key == ClosePriceKey then "价格"
    else if key == PriceChangePctKey then "涨跌幅%"
    else if key == VolumeKey then "成交量"
    else "市场"
  }

  /** `columns.map(col => visibleColumns.includes(col.key) && …)`: the visible keys of `keys`, in order. */
  function VisibleKeys(keys: seq<string>, visible: seq<string>): seq<string> {
    if keys == [] then [] else Opt(keys[0] in visible, keys[0]) + VisibleKeys(keys[1..], visible)
  }

  /** The visible keys keep the order of `keys` and are exactly its members that are visible. */
  lemma {:induction false} VisibleKeysOrdered(keys: seq<string>, visible: seq<string>)
    ensures IsSubsequence(VisibleKeys(keys, visible), keys)
    ensures forall k :: k in VisibleKeys(keys, visible) <==> k in keys && k in visible
  {
    if keys != [] {
      var rest := VisibleKeys(keys[1..], visible);
      VisibleKeysOrdered(keys[1..], visible);
      assert keys == [keys[0]] + keys[1..];
      if keys[0] in visible {
        assert ([keys[0]] + rest)[1..] == rest;
      } else {
        assert [] + rest == rest;
      }
    }
  }

  lemma VisibleKeysCons(keys: seq<string>, visible: seq<string>)
    requires keys != []
    ensures VisibleKeys(keys, visible) == Opt(keys[0] in visible, keys[0]) + VisibleKeys(keys[1..], visible)
  {
  }

  /** The keys of the header cells: the fixed columns that are visible, in table order. */
  function HeaderColumns(visible: seq<string>): (r: seq<string>)
    ensures IsSubsequence(r, ColumnKeys)
    ensures forall k :: k in r <==> k in ColumnKeys && k in visible
  {
    VisibleKeysOrdered(ColumnKeys, visible);
    VisibleKeys(ColumnKeys, visible)
  }

  datatype HeaderCell = HeaderCell(key: string, caption: string, arrow: Option<string>)

  function Arrow(dir: Direction): string {
    if dir == Asc then "↑" else "↓"
  }

  function Header(key: string, column: Option<string>, dir: Direction): (r: HeaderCell)
    ensures r.key == key && r.caption == Caption(key)
    ensures r.arrow.Some? <==> column == Some(key)
  {
    HeaderCell(key, Caption(key), if column == Some(key) then Some(Arrow(dir)) else None)
  }

  /** A body cell: a raw field, or a formatted number. */
  datatype CellView = Raw(field: Option<string>) | Shown(formatted: NumberFormat.Text)

  /** The cell one column shows for a row. */
  function CellFor(stock: Stock, key: string): CellView {
    if key == SymbolKey then Raw(stock.symbol)
    else if key == StockNameKey then Raw(stock.stockName)
    else if key == ClosePriceKey then Shown(NumberFormat.FormatCurrency(stock.closePrice, 2))
    else if key == PriceChangePctKey then Shown(NumberFormat.FormatPercentage(stock.priceChangePct, 2))
    else if key == VolumeKey then Shown(NumberFormat.FormatVolume(stock.volume))
    else Raw(stock.marketCode)
  }

  function Cells(stock: Stock, keys: seq<string>): (r: seq<CellView>)
    ensures |r| == |keys| && forall i :: 0 <= i < |keys| ==> r[i] == CellFor(stock, keys[i])
  {
    seq(|keys|, i requires 0 <= i < |keys| => CellFor(stock, keys[i]))
  }

  function Opt<T>(present: bool, x: T): seq<T> {
    if present then [x] else []
  }

  /** The cells of one body row, each guarded by its own visibility test. */
  function RowCells(stock: Stock, visible: seq<string>): seq<CellView> {
    Opt(SymbolKey in visible, CellFor(stock, SymbolKey))
    + (Opt(StockNameKey in visible, CellFor(stock, StockNameKey))
    + (Opt(ClosePriceKey in visible, CellFor(stock, ClosePriceKey))
    + (Opt(PriceChangePctKey in visible, CellFor(stock, PriceChangePctKey))
    + (Opt(VolumeKey in visible, CellFor(stock, VolumeKey))
    + Opt(MarketCodeKey in visible, CellFor(stock, MarketCodeKey))))))
  }

  lemma CellsConcat(stock: Stock, a: seq<string>, b: seq<string>)
    ensures Cells(stock, a + b) == Cells(stock, a) + Cells(stock, b)
  {
  }

  /** The header keys are the six visibility tests of the column list, in order. */
  lemma HeaderColumnsUnrolled(visible: seq<string>)
    ensures HeaderColumns(visible) ==
      Opt(SymbolKey in visible, SymbolKey) + (Opt(StockNameKey in visible, StockNameKey)
      + (Opt(ClosePriceKey in visible, ClosePriceKey) + (Opt(PriceChangePctKey in visible, PriceChangePctKey)
      + (Opt(VolumeKey in visible, VolumeKey) + Opt(MarketCodeKey in visible, MarketCodeKey)))))
  {
    var ks := ColumnKeys;
    VisibleKeysCons(ks, visible);
    VisibleKeysCons(ks[1..], visible);
    VisibleKeysCons(ks[2..], visible);
    VisibleKeysCons(ks[3..], visible);
    VisibleKeysCons(ks[4..], visible);
    VisibleKeysCons(ks[5..], visible);
    assert ks[1..][1..] == ks[2..] && ks[2..][1..] == ks[3..] && ks[3..][1..] == ks[4..];
    assert ks[4..][1..] == ks[5..] && ks[5..][1..] == [];
    var last := Opt(MarketCodeKey in visible, MarketCodeKey);
    assert last + [] == last;
  }

  /** Every body row lines up with the header: one cell per header column, same order. */
  lemma RowCellsMatchHeader(stock: Stock, visible: seq<string>)
    ensures RowCells(stock, visible) == Cells(stock, HeaderColumns(visible))
  {
    var o0, o1, o2 := Opt(SymbolKey in visible, SymbolKey), Opt(StockNameKey in visible, StockNameKey), Opt(ClosePriceKey in visible, ClosePriceKey);
    var o3, o4, o5 := Opt(PriceChangePctKey in visible, PriceChangePctKey), Opt(VolumeKey in visible, VolumeKey), Opt(MarketCodeKey in visible, MarketCodeKey);
    HeaderColumnsUnrolled(visible);
    CellsConcat(stock, o0, o1 + (o2 + (o3 + (o4 + o5))));
    CellsConcat(stock, o1, o2 + (o3 + (o4 + o5)));
    CellsConcat(stock, o2, o3 + (o4 + o5));
    CellsConcat(stock, o3, o4 + o5);
    CellsConcat(stock, o4, o5);
    CellsOpt(stock, SymbolKey in visible, SymbolKey);
    CellsOpt(stock, StockNameKey in visible, StockNameKey);
    CellsOpt(stock, ClosePriceKey in visible, ClosePriceKey);
    CellsOpt(stock, PriceChangePctKey in visible, PriceChangePctKey);
    CellsOpt(stock, VolumeKey in visible, VolumeKey);
    CellsOpt(stock, MarketCodeKey in visible, MarketCodeKey);
  }

  lemma CellsOpt(stock: Stock, present: bool, k: string)
    ensures Cells(stock, Opt(present, k)) == Opt(present, CellFor(stock, k))
  {
  }

  datatype View =
    | LoadingView
    | ErrorView(message: string)
    | TableView(headers: seq<HeaderCell>, rows: seq<seq<CellView>>, emptyNotice: bool)

  /** The table component and its local state; the rows live in the shared dashboard state. */
  class Table {
    const store: DashboardContext.Provider
    var loading: bool
    var error: Option<string>
    var sortColumn: Option<string>
    var sortDirection: Direction

    constructor (store: DashboardContext.Provider)
      ensures this.store == store
      ensures loading && error == None && sortColumn == None && sortDirection == Asc
    {
      this.store := store;
      loading := true;
      error := None;
      sortColumn := None;
      sortDirection := Asc;
    }

    /** `loadStocks`: returns the query it sends, then applies the outcome of the request. */
    method LoadStocks(response: CallOutcome<ListResponse>) returns (query: seq<StockService.Param>)
      modifies this`loading, this`error, store
      ensures StockService.Lookup(query, "limit") == Some(StockService.Int(RequestLimit))
      ensures forall k :: k in StockService.ListOrder && k != "limit" ==> StockService.Lookup(query, k) == None
      ensures !loading
      ensures LoadResultOf(response).Loaded? ==>
        var rows := LoadResultOf(response).rows;
        error == None && store.state == old(store.state).(stocks := rows, filteredStocks := rows)
      ensures LoadResultOf(response).Failed? ==>
        error == LoadResultOf(response).message && store.state == old(store.state)
    {
      loading := true;
      error := None;
      query := StockService.ListParams(StockService.ListOptions(None, None, Some(RequestLimit), None));
      match response {
        case Threw(message) =>
          error := message;
        case Returned(resp) =>
          if resp.code == 200 && resp.data.Some? {
            var items := Items(resp.data.value);
            if |items| > 0 {
              store.Dispatch(DashboardContext.SetStocks(items));
              store.Dispatch(DashboardContext.SetFilteredStocks(items));
            } else {
              error := Some(NoData);
            }
          } else {
            error := Some(LoadFailed);
          }
      }
      loading := false;
    }

    /** `handleSort(columnKey)`. */
    method HandleSort(key: string)
      modifies this`sortColumn, this`sortDirection
      ensures (sortColumn, sortDirection) == NextSort(old(sortColumn), old(sortDirection), key)
    {
      if sortColumn == Some(key) {
        sortDirection := if sortDirection == Asc then Desc else Asc;
      } else {
        sortColumn := Some(key);
        sortDirection := Asc;
      }
    }

    /** `sortedStocks`: a sorted copy; the dashboard state is only read. */
    function SortedStocks(): (r: seq<Stock>)
      reads this, store
      ensures multiset(r) == multiset(store.state.filteredStocks)
      ensures SortedBy(r, sortColumn, sortDirection)
    {
      SortRows(store.state.filteredStocks, sortColumn, sortDirection)
    }

    /** What the component renders: loading first, then a truthy error, then the table. */
    function Render(visible: seq<string>): (v: View)
      reads this, store
      ensures loading ==> v == LoadingView
      ensures !loading && Truthy(error) ==> v == ErrorView(error.value)
      ensures !loading && !Truthy(error) ==> v.TableView?
      ensures v.TableView? ==>
        |v.headers| == |HeaderColumns(visible)| &&
        (forall i :: 0 <= i < |v.headers| ==>
          v.headers[i] == Header(HeaderColumns(visible)[i], sortColumn, sortDirection)) &&
        |v.rows| == |store.state.filteredStocks| && |v.rows| == |SortedStocks()| &&
        (forall i :: 0 <= i < |v.rows| ==> v.rows[i] == RowCells(SortedStocks()[i], visible)) &&
        (v.emptyNotice <==> store.state.filteredStocks == [])
    {
      if loading then LoadingView
      else if Truthy(error) then ErrorView(error.value)
      else
        var keys := HeaderColumns(visible);
        var sorted := SortedStocks();
        var column, dir := sortColumn, sortDirection;
        assert |sorted| == |multiset(sorted)|;
        TableView(
          seq(|keys|, i requires 0 <= i < |keys| => Header(keys[i], column, dir)),
          seq(|sorted|, i requires 0 <= i < |sorted| => RowCells(sorted[i], visible)),
          |sorted| == 0)
    }
  }
}
