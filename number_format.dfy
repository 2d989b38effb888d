/**
 * The display formatters (src/utils/numberFormat.js). Formatted text is a
 * sequence of pieces: literal characters, which the model spells out (the
 * `--` placeholder, `%`, the volume suffixes), and digit runs produced by
 * `toFixed`, `toString` or `Intl.NumberFormat`, which the model keeps as the
 * value and the number of fraction digits they render.
 */
module NumberFormat {
  import opened Common

  datatype Piece =
    | Lit(text: string)
    | Fixed(value: real, digits: nat)      // value.toFixed(digits)
    | Shortest(value: real)                // value.toString()
    | Grouped(value: real, digits: nat)    // Intl.NumberFormat('zh-CN') with that many fraction digits
    | Yuan(value: real, digits: nat)       // the same, as a CNY currency amount

  type Text = seq<Piece>

  const Placeholder: Text := [Lit("--")]

  const Yi: string := "亿"
  const Wan: string := "万"
  const YiUnit: real := 100000000.0
  const WanUnit: real := 10000.0

  /** The literal suffix of a two-piece text, if it has one. */
  function Suffix(t: Text): Option<string> {
    if |t| == 2 && t[1].Lit? then Some(t[1].text) else None
  }

  /** `formatCurrency(value, decimals)`; the source's default for `decimals` is 2. */
  function FormatCurrency(value: Option<real>, decimals: nat): (r: Text)
    ensures r == Placeholder <==> value.None?
    ensures value.Some? ==> r == [Yuan(value.value, decimals)]
  {
    if value.None? then Placeholder else [Yuan(value.value, decimals)]
  }

  /** `formatPercentage(value, decimals)`; the source's default for `decimals` is 2. */
  function FormatPercentage(value: Option<real>, decimals: nat): (r: Text)
    ensures r == Placeholder <==> value.None?
    ensures value.Some? ==> |r| == 2 && r[0] == Fixed(value.value, decimals) && r[|r| - 1] == Lit("%")
  {
    if value.None? then Placeholder else [Fixed(value.value, decimals), Lit("%")]
  }

  /** `formatNumber(value, decimals)`; the source's default for `decimals` is 0. */
  function FormatNumber(value: Option<real>, decimals: nat): (r: Text)
    ensures r == Placeholder <==> value.None?
    ensures value.Some? ==> r == [Grouped(value.value, decimals)]
  {
    if value.None? then Placeholder else [Grouped(value.value, decimals)]
  }

  /**
   * `formatVolume(value)`: hundreds of millions with the 亿 suffix, tens of
   * thousands with the 万 suffix, anything smaller as the bare number.
   */
  function FormatVolume(value: Option<real>): (r: Text)
    ensures r == Placeholder <==> value.None?
    ensures Suffix(r) == Some(Yi) <==> value.Some? && value.value >= YiUnit
    ensures Suffix(r) == Some(Wan) <==> value.Some? && WanUnit <= value.value < YiUnit
    ensures value.Some? && value.value < WanUnit ==> r == [Shortest(value.value)]
    // the scaled amount has two fraction digits and gives the value back
    ensures Suffix(r) == Some(Yi) ==> r[0].Fixed? && r[0].digits == 2 && r[0].value * YiUnit == value.value && r[0].value >= 1.0
    ensures Suffix(r) == Some(Wan) ==> r[0].Fixed? && r[0].digits == 2 && r[0].value * WanUnit == value.value && 1.0 <= r[0].value < WanUnit
  {
    if value.None? then Placeholder
    else if value.value >= YiUnit then [Fixed(value.value / YiUnit, 2), Lit(Yi)]
    else if value.value >= WanUnit then [Fixed(value.value / WanUnit, 2), Lit(Wan)]
    else [Shortest(value.value)]
  }
}
