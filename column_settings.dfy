/**
 * The column-visibility panel (src/components/dashboard/ColumnSettings.jsx):
 * six fixed columns with a visibility flag, a toggle that flips one column,
 * a reset that shows them all, the list of visible keys reported to the page,
 * and the configuration written to browser storage.
 */
module ColumnSettings {
  import opened Common
  import opened Records

  const Labels: seq<string> := ["Symbol", "Name", "Price", "Change %", "Volume", "Market"]

  /** The initial column list: the fixed columns, visible when the page shows them. */
  function InitialColumns(visible: seq<string>): (r: seq<ColumnEntry>)
    ensures |r| == |ColumnKeys|
    ensures forall i :: 0 <= i < |r| ==>
      r[i].key == ColumnKeys[i] && r[i].caption == Labels[i] && r[i].visible == (ColumnKeys[i] in visible)
  {
    [ ColumnEntry(SymbolKey, "Symbol", SymbolKey in visible),
      ColumnEntry(StockNameKey, "Name", StockNameKey in visible),
      ColumnEntry(ClosePriceKey, "Price", ClosePriceKey in visible),
      ColumnEntry(PriceChangePctKey, "Change %", PriceChangePctKey in visible),
      ColumnEntry(VolumeKey, "Volume", VolumeKey in visible),
      ColumnEntry(MarketCodeKey, "Market", MarketCodeKey in visible) ]
  }

  /** `columns.map(col => col.key)`. */
  function Keys(columns: seq<ColumnEntry>): (r: seq<string>)
    ensures |r| == |columns| && forall i :: 0 <= i < |columns| ==> r[i] == columns[i].key
  {
    if columns == [] then [] else [columns[0].key] + Keys(columns[1..])
  }

  predicate IsVisible(c: ColumnEntry) {
    c.visible
  }

  /** `columns.filter(col => col.visible).map(col => col.key)`: the reported keys. */
  function ReportedKeys(columns: seq<ColumnEntry>): (r: seq<string>)
    ensures IsSubsequence(r, Keys(columns))
    ensures forall k :: k in r <==> exists i :: 0 <= i < |columns| && columns[i].key == k && columns[i].visible
  {
    if columns == [] then []
    else
      var rest := ReportedKeys(columns[1..]);
      assert Keys(columns)[1..] == Keys(columns[1..]);
      forall k | k in rest ensures exists i :: 0 <= i < |columns| && columns[i].key == k && columns[i].visible {
        var j :| 0 <= j < |columns[1..]| && columns[1..][j].key == k && columns[1..][j].visible;
        assert columns[j + 1] == columns[1..][j];
      }
      forall i | 1 <= i < |columns| && columns[i].visible ensures columns[i].key in rest {
        assert columns[1..][i - 1] == columns[i];
      }
      if columns[0].visible then
        assert ([columns[0].key] + rest)[1..] == rest;
        [columns[0].key] + rest
      else rest
  }

  /** `handleToggle`'s new list: the entries with `key` flip their flag, nothing else changes. */
  function ToggleColumn(columns: seq<ColumnEntry>, key: string): (r: seq<ColumnEntry>)
    ensures |r| == |columns|
    ensures forall i :: 0 <= i < |r| ==>
      r[i].key == columns[i].key && r[i].caption == columns[i].caption &&
      r[i].visible == (if columns[i].key == key then !columns[i].visible else columns[i].visible)
  {
    seq(|columns|, i requires 0 <= i < |columns| =>
      if columns[i].key == key then columns[i].(visible := !columns[i].visible) else columns[i])
  }

  /** `handleReset`'s new list: every entry visible, keys and captions kept. */
  function ResetColumns(columns: seq<ColumnEntry>): (r: seq<ColumnEntry>)
    ensures |r| == |columns|
    ensures forall i :: 0 <= i < |r| ==>
      r[i].key == columns[i].key && r[i].caption == columns[i].caption && r[i].visible
  {
    seq(|columns|, i requires 0 <= i < |columns| => columns[i].(visible := true))
  }

  /** Toggling the same key twice gives the original list back. */
  lemma ToggleTwiceRestores(columns: seq<ColumnEntry>, key: string)
    ensures ToggleColumn(ToggleColumn(columns, key), key) == columns
  {
    var r := ToggleColumn(ToggleColumn(columns, key), key);
    assert forall i :: 0 <= i < |r| ==> r[i] == columns[i];
  }

  /** A toggle leaves every other key's report as it was. */
  lemma ToggleKeepsOtherReports(columns: seq<ColumnEntry>, key: string, k: string)
    requires k != key
    ensures k in ReportedKeys(ToggleColumn(columns, key)) <==> k in ReportedKeys(columns)
  {
    var t := ToggleColumn(columns, key);
    if k in ReportedKeys(t) {
      var i :| 0 <= i < |t| && t[i].key == k && t[i].visible;
      assert columns[i].key == k && columns[i].visible;
    }
    if k in ReportedKeys(columns) {
      var i :| 0 <= i < |columns| && columns[i].key == k && columns[i].visible;
      assert t[i].key == k && t[i].visible;
    }
  }

  /** With unique keys, two entries carrying the same key are one entry. */
  lemma SameKeySameIndex(columns: seq<ColumnEntry>, i: int, j: int)
    requires NoDuplicates(Keys(columns)) && 0 <= i < |columns| && 0 <= j < |columns|
    requires columns[i].key == columns[j].key
    ensures i == j
  {
    DistinctAt(Keys(columns), i, j);
  }

  /** When only entry `j` carries the key, the key is reported exactly when that entry is visible. */
  lemma ReportedAtOnlyIndex(columns: seq<ColumnEntry>, key: string, j: int)
    requires 0 <= j < |columns| && columns[j].key == key
    requires forall i :: 0 <= i < |columns| && columns[i].key == key ==> i == j
    ensures key in ReportedKeys(columns) <==> columns[j].visible
  {
    if key in ReportedKeys(columns) {
      var i :| 0 <= i < |columns| && columns[i].key == key && columns[i].visible;
      assert i == j;
    }
  }

  /** When only entry `j` carries the key, toggling it flips whether the key is reported. */
  lemma ToggleFlipsOwnReport(columns: seq<ColumnEntry>, key: string, j: int)
    requires 0 <= j < |columns| && columns[j].key == key
    requires forall i :: 0 <= i < |columns| && columns[i].key == key ==> i == j
    ensures key in ReportedKeys(ToggleColumn(columns, key)) <==> key !in ReportedKeys(columns)
  {
    var t := ToggleColumn(columns, key);
    ReportedAtOnlyIndex(columns, key, j);
    ReportedAtOnlyIndex(t, key, j);
  }

  /** With unique keys, a toggle flips whether that key is reported and keeps every other key's report. */
  lemma ToggleFlipsReported(columns: seq<ColumnEntry>, key: string)
    requires NoDuplicates(Keys(columns)) && key in Keys(columns)
    ensures key in ReportedKeys(ToggleColumn(columns, key)) <==> key !in ReportedKeys(columns)
    ensures forall k :: k != key ==> (k in ReportedKeys(ToggleColumn(columns, key)) <==> k in ReportedKeys(columns))
  {
    var j :| 0 <= j < |columns| && Keys(columns)[j] == key;
    forall i | 0 <= i < |columns| && columns[i].key == key ensures i == j {
      SameKeySameIndex(columns, i, j);
    }
    ToggleFlipsOwnReport(columns, key, j);
    forall k | k != key
      ensures k in ReportedKeys(ToggleColumn(columns, key)) <==> k in ReportedKeys(columns)
    {
      ToggleKeepsOtherReports(columns, key, k);
    }
  }

  /**
   * The reported keys are exactly `columns.filter(col => col.visible).map(col => col.key)`,
   * repeated keys and their order included.
   */
  lemma {:induction false} ReportedKeysAreVisibleKeys(columns: seq<ColumnEntry>)
    ensures ReportedKeys(columns) == Keys(Filter(columns, IsVisible))
  {
    if columns != [] {
      ReportedKeysAreVisibleKeys(columns[1..]);
      var rest := Filter(columns[1..], IsVisible);
      if columns[0].visible {
        assert Filter(columns, IsVisible) == [columns[0]] + rest;
        assert ([columns[0]] + rest)[1..] == rest;
      } else {
        assert Filter(columns, IsVisible) == rest;
      }
    }
  }

  /** After a reset every key of the list is reported, in list order. */
  lemma {:induction false} ResetReportsAllKeys(columns: seq<ColumnEntry>)
    ensures ReportedKeys(ResetColumns(columns)) == Keys(columns)
  {
    if columns != [] {
      ResetReportsAllKeys(columns[1..]);
      assert ResetColumns(columns)[1..] == ResetColumns(columns[1..]);
    }
  }

  /** The initial list reports exactly the fixed keys the page shows, in table order. */
  lemma InitialReportsVisible(visible: seq<string>)
    ensures Keys(InitialColumns(visible)) == ColumnKeys
    ensures forall k :: k in ReportedKeys(InitialColumns(visible)) <==> k in ColumnKeys && k in visible
  {
    var cs := InitialColumns(visible);
    forall k ensures k in ReportedKeys(cs) <==> k in ColumnKeys && k in visible {
      if k in ColumnKeys && k in visible {
        var i :| 0 <= i < |ColumnKeys| && ColumnKeys[i] == k;
        assert cs[i].key == k && cs[i].visible;
      }
    }
  }

  /** The panel's state: the column list and what it last wrote to storage. */
  class Panel {
    var columns: seq<ColumnEntry>
    var stored: Option<seq<ColumnEntry>>

    constructor (visible: seq<string>)
      ensures columns == InitialColumns(visible) && stored == None
    {
      columns := InitialColumns(visible);
      stored := None;
    }

    /** The mount effect: a parsed saved configuration replaces the list as it is. */
    method LoadSaved(saved: SavedColumns)
      modifies this`columns
      ensures saved.Saved? ==> columns == saved.config
      ensures !saved.Saved? ==> columns == old(columns)
    {
      if saved.Saved? {
        columns := saved.config;
      }
    }

    /** `handleToggle(key)`: returns the keys it reports to the page. */
    method HandleToggle(key: string) returns (reported: seq<string>)
      modifies this
      ensures columns == ToggleColumn(old(columns), key)
      ensures reported == ReportedKeys(columns)
      ensures stored == Some(columns)
    {
      var updated := ToggleColumn(columns, key);
      columns := updated;
      reported := ReportedKeys(updated);
      stored := Some(updated);
    }

    /** `handleReset`: returns the keys it reports to the page, which are all of them. */
    method HandleReset() returns (reported: seq<string>)
      modifies this
      ensures columns == ResetColumns(old(columns))
      ensures reported == Keys(old(columns))
      ensures stored == Some(columns)
    {
      var updated := ResetColumns(columns);
      columns := updated;
      ResetReportsAllKeys(old(columns));
      reported := ReportedKeys(updated);
      stored := Some(updated);
    }
  }
}
