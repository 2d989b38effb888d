/**
 * The dashboard page (src/pages/DashboardPage.jsx): its local state (visible
 * columns, search term, selected markets), the filter effect that writes the
 * rows the table shows into the dashboard state, and the load of the saved
 * column configuration.
 */
module DashboardPage {
  import opened Common
  import opened Records
  import DashboardContext
  import ColumnSettings
  import MarketFilter

  /**
   * The search half of the filter: an empty term matches every row; otherwise
   * the lower-cased symbol or name must contain the lower-cased term.
   */
  predicate MatchesSearch(stock: Stock, term: string) {
    term == ""
    || (stock.symbol.Some? && Contains(Lower(stock.symbol.value), Lower(term)))
    || (stock.stockName.Some? && Contains(Lower(stock.stockName.value), Lower(term)))
  }

  /** The market half: the row's market code is one of the selected ones. */
  predicate MatchesMarket(stock: Stock, markets: seq<string>) {
    stock.marketCode.Some? && stock.marketCode.value in markets
  }

  predicate Kept(stock: Stock, term: string, markets: seq<string>) {
    MatchesSearch(stock, term) && MatchesMarket(stock, markets)
  }

  /** The rows the filter effect keeps: the matching rows, in their original order. */
  function FilterStocks(stocks: seq<Stock>, term: string, markets: seq<string>): (r: seq<Stock>)
    ensures IsSubsequence(r, stocks)
    ensures forall s :: s in r <==> s in stocks && Kept(s, term, markets)
    ensures forall s :: multiset(r)[s] == if Kept(s, term, markets) then multiset(stocks)[s] else 0
  {
    var r := Filter(stocks, s => Kept(s, term, markets));
    assert forall s :: s in r <==> multiset(r)[s] > 0;
    assert forall s :: s in stocks <==> multiset(stocks)[s] > 0;
    r
  }

  /** With an empty term, exactly the rows of the selected markets remain, in order. */
  lemma EmptyTermFiltersByMarket(stocks: seq<Stock>, markets: seq<string>)
    ensures FilterStocks(stocks, "", markets) == Filter(stocks, s => MatchesMarket(s, markets))
  {
    FilterPointwise(stocks, s => Kept(s, "", markets), s => MatchesMarket(s, markets));
  }

  /** A row whose symbol and name are both missing never matches a non-empty term. */
  lemma MissingFieldsNeverMatch(stock: Stock, term: string)
    requires term != "" && stock.symbol.None? && stock.stockName.None?
    ensures !MatchesSearch(stock, term)
  {
  }

  /** The search ignores the case of the term. */
  lemma SearchIgnoresTermCase(stock: Stock, term: string)
    ensures MatchesSearch(stock, Lower(term)) <==> MatchesSearch(stock, term)
  {
    LowerIdempotent(term);
    if term != "" {
      assert |Lower(term)| == |term|;
    }
  }

  /** A term that occurs in the lower-cased symbol keeps every row of a selected market. */
  lemma SymbolHitIsKept(stock: Stock, term: string, markets: seq<string>, at: int)
    requires stock.symbol.Some? && OccursAt(Lower(term), Lower(stock.symbol.value), at)
    requires MatchesMarket(stock, markets)
    ensures Kept(stock, term, markets)
  {
    ContainsIffOccurs(Lower(stock.symbol.value), Lower(term));
  }

  /** The page's local state; the rows live in the shared dashboard state. */
  class Page {
    const store: DashboardContext.Provider
    var visibleColumns: seq<string>
    var showColumnSettings: bool
    var searchTerm: string
    var selectedMarkets: seq<string>

    constructor (store: DashboardContext.Provider)
      ensures this.store == store
      ensures visibleColumns == ColumnKeys && !showColumnSettings
      ensures searchTerm == "" && selectedMarkets == DashboardContext.DefaultMarkets
    {
      this.store := store;
      visibleColumns := ColumnKeys;
      showColumnSettings := false;
      searchTerm := "";
      selectedMarkets := DashboardContext.DefaultMarkets;
    }

    /** The filter effect: only the filtered rows of the dashboard state are replaced. */
    method ApplyFilters()
      modifies store
      ensures store.state == old(store.state).(filteredStocks :=
        FilterStocks(old(store.state.stocks), searchTerm, selectedMarkets))
    {
      var filtered := FilterStocks(store.state.stocks, searchTerm, selectedMarkets);
      store.Dispatch(DashboardContext.SetFilteredStocks(filtered));
    }

    /** The search bar's callback, followed by the filter effect. */
    method OnSearchChange(term: string)
      modifies this`searchTerm, store
      ensures searchTerm == term
      ensures store.state == old(store.state).(filteredStocks :=
        FilterStocks(old(store.state.stocks), term, selectedMarkets))
    {
      searchTerm := term;
      ApplyFilters();
    }

    /** A market checkbox click, followed by the filter effect. */
    method OnMarketToggle(code: string)
      modifies this`selectedMarkets, store
      ensures selectedMarkets == MarketFilter.ToggleMarket(old(selectedMarkets), code)
      ensures store.state == old(store.state).(filteredStocks :=
        FilterStocks(old(store.state.stocks), searchTerm, selectedMarkets))
    {
      selectedMarkets := MarketFilter.ToggleMarket(selectedMarkets, code);
      ApplyFilters();
    }

    /** The mount effect: a parsed configuration shows the keys of its visible entries. */
    method LoadSavedColumns(saved: SavedColumns)
      modifies this`visibleColumns
      ensures saved.Saved? ==> visibleColumns == ColumnSettings.ReportedKeys(saved.config)
      ensures !saved.Saved? ==> visibleColumns == old(visibleColumns)
    {
      if saved.Saved? {
        visibleColumns := ColumnSettings.ReportedKeys(saved.config);
      }
    }

    /** The column-settings callback. */
    method OnColumnsChange(keys: seq<string>)
      modifies this`visibleColumns
      ensures visibleColumns == keys
    {
      visibleColumns := keys;
    }

    method ToggleColumnSettings()
      modifies this`showColumnSettings
      ensures showColumnSettings == !old(showColumnSettings)
    {
      showColumnSettings := !showColumnSettings;
    }
  }
}
