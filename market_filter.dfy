/**
 * The market selector (src/components/dashboard/MarketFilter.jsx): three
 * exchange checkboxes and a toggle that removes a selected code or appends an
 * unselected one.
 */
module MarketFilter {
  import opened Common

  datatype Market = Market(code: string, caption: string, name: string)

  const Markets: seq<Market> := [
    Market("SH", "Shanghai", "上海"),
    Market("SZ", "Shenzhen", "深圳"),
    Market("BJ", "Beijing", "北京")]

  /**
   * `handleToggle(code)`'s new list: a selected code is removed wherever it
   * occurs, the other codes keep their order and count; an unselected code
   * is appended at the end.
   */
  function ToggleMarket(selected: seq<string>, code: string): (r: seq<string>)
    ensures code in selected ==> code !in r && IsSubsequence(r, selected)
    ensures code in selected ==> forall m :: m != code ==> multiset(r)[m] == multiset(selected)[m]
    ensures code !in selected ==> r == selected + [code]
  {
    if code in selected then
      var r := Filter(selected, m => m != code);
      assert multiset(r)[code] == 0;
      r
    else selected + [code]
  }

  /** Only the toggled code changes membership. */
  lemma ToggleKeepsOthers(selected: seq<string>, code: string, other: string)
    requires other != code
    ensures other in ToggleMarket(selected, code) <==> other in selected
  {
    var r := ToggleMarket(selected, code);
    assert other in r <==> multiset(r)[other] > 0;
    assert other in selected <==> multiset(selected)[other] > 0;
  }

  /** The toggled code is selected afterwards exactly when it was not before. */
  lemma ToggleFlipsCode(selected: seq<string>, code: string)
    ensures code in ToggleMarket(selected, code) <==> code !in selected
  {
    if code !in selected {
      assert ToggleMarket(selected, code)[|selected|] == code;
    }
  }

  /** Toggling an unselected code twice gives the original list back. */
  lemma ToggleAbsentTwice(selected: seq<string>, code: string)
    requires code !in selected
    ensures ToggleMarket(ToggleMarket(selected, code), code) == selected
  {
    var p := m => m != code;
    var once := ToggleMarket(selected, code);
    assert code in once by { assert once[|selected|] == code; }
    FilterConcat(selected, [code], p);
    FilterAllPass(selected, p);
    assert [code][1..] == [];
    assert Filter([code], p) == [];
  }

  /** Which checkboxes are ticked, in market order. */
  function CheckedBoxes(selected: seq<string>): (r: seq<bool>)
    ensures |r| == |Markets|
    ensures forall i :: 0 <= i < |Markets| ==> (r[i] <==> Markets[i].code in selected)
  {
    ["SH" in selected, "SZ" in selected, "BJ" in selected]
  }
}
