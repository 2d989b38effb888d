/**
 * The records the dashboard components pass between each other: a stock row
 * as the stock list returns it, the value a row holds under a column key,
 * an entry of the persisted column configuration, and a saved script.
 */
module Records {
  import opened Common

  /** A stock row; every field may be null or undefined in the response. */
  datatype Stock = Stock(
    symbol: Option<string>,
    stockName: Option<string>,
    closePrice: Option<real>,
    priceChangePct: Option<real>,
    volume: Option<real>,
    marketCode: Option<string>)

  /** The column keys of the stock table, in table order. */
  const SymbolKey: string := "symbol"
  const StockNameKey: string := "stock_name"
  const ClosePriceKey: string := "close_price"
  const PriceChangePctKey: string := "price_change_pct"
  const VolumeKey: string := "volume"
  const MarketCodeKey: string := "market_code"

  const ColumnKeys: seq<string> :=
    [SymbolKey, StockNameKey, ClosePriceKey, PriceChangePctKey, VolumeKey, MarketCodeKey]

  /** A value a row holds under a column: a number or a string. */
  datatype Cell = Num(n: real) | Text(t: string)

  /**
   * `row[key]`: the value of the named field, undefined (`None`) when the field
   * is null or undefined or when `key` names no field.
   */
  function Field(row: Stock, key: string): (r: Option<Cell>)
    ensures r.Some? ==> key in ColumnKeys
    ensures r.Some? && r.value.Text? ==> key in {SymbolKey, StockNameKey, MarketCodeKey}
    ensures r.Some? && r.value.Num? ==> key in {ClosePriceKey, PriceChangePctKey, VolumeKey}
  {
    if key == SymbolKey then TextCell(row.symbol)
    else if key == StockNameKey then TextCell(row.stockName)
    else if key == ClosePriceKey then NumCell(row.closePrice)
    else if key == PriceChangePctKey then NumCell(row.priceChangePct)
    else if key == VolumeKey then NumCell(row.volume)
    else if key == MarketCodeKey then TextCell(row.marketCode)
    else None
  }

  function TextCell(s: Option<string>): Option<Cell> {
    if s.Some? then Some(Text(s.value)) else None
  }

  function NumCell(x: Option<real>): Option<Cell> {
    if x.Some? then Some(Num(x.value)) else None
  }

  /** Two present values of one column are of the same kind. */
  lemma FieldKindPerColumn(a: Stock, b: Stock, key: string)
    requires Field(a, key).Some? && Field(b, key).Some?
    ensures Field(a, key).value.Num? == Field(b, key).value.Num?
  {
  }

  /** An entry of the column configuration, as persisted: `{key, label, visible}` (`label` is a Dafny keyword, so the field is `caption`). */
  datatype ColumnEntry = ColumnEntry(key: string, caption: string, visible: bool)

  /** What the browser storage yields for the column configuration. */
  datatype SavedColumns =
    | NotSaved                        // missing entry, or an empty string
    | Unparsable                      // `JSON.parse` throws
    | Saved(config: seq<ColumnEntry>)

  /** A script id as the server sends it: a number or a string. */
  datatype ScriptId = NumId(n: int) | StrId(s: string)

  predicate IdTruthy(id: ScriptId) {
    match id
    case NumId(n) => n != 0
    case StrId(s) => s != ""
  }

  /** A saved script of the library. */
  datatype Script = Script(id: ScriptId, name: string, description: Option<string>, code: string)

  /** The direction of the table sort. */
  datatype Direction = Asc | Desc
}
