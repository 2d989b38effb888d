/**
 * The dashboard state container (src/context/DashboardContext.jsx): a record
 * of ten fields, a reducer in which every action replaces the fields it names
 * and nothing else, the provider that holds the current state, and the hook
 * guard that refuses to run outside a provider.
 */
module DashboardContext {
  import opened Common
  import opened Records

  datatype State = State(
    stocks: seq<Stock>,
    filteredStocks: seq<Stock>,
    columnConfig: seq<ColumnEntry>,
    marketFilter: seq<string>,
    searchTerm: string,
    sortColumn: Option<string>,
    sortDirection: Option<Direction>,
    customScripts: seq<Script>,
    loading: bool,
    error: Option<string>)

  const DefaultMarkets: seq<string> := ["SH", "SZ", "BJ"]

  const Initial: State :=
    State([], [], [], DefaultMarkets, "", None, None, [], false, None)

  /** The actions the reducer knows, and any other action type. */
  datatype Action =
    | SetStocks(stocks: seq<Stock>)
    | SetFilteredStocks(rows: seq<Stock>)
    | SetLoading(flag: bool)
    | SetError(message: Option<string>)
    | SetSearchTerm(term: string)
    | SetMarketFilter(markets: seq<string>)
    | SetSort(column: Option<string>, direction: Option<Direction>)
    | SetColumnConfig(config: seq<ColumnEntry>)
    | SetCustomScripts(scripts: seq<Script>)
    | Other(actionType: string)   // a type none of the cases above names

  /** The fields of the state, one per slot. */
  datatype Slot =
    | StocksSlot | FilteredSlot | ColumnConfigSlot | MarketSlot | SearchSlot
    | SortColumnSlot | SortDirectionSlot | ScriptsSlot | LoadingSlot | ErrorSlot

  /** The fields an action writes. */
  function Writes(a: Action): set<Slot> {
    match a
    case SetStocks(_) => {StocksSlot}
    case SetFilteredStocks(_) => {FilteredSlot}
    case SetLoading(_) => {LoadingSlot}
    case SetError(_) => {ErrorSlot}
    case SetSearchTerm(_) => {SearchSlot}
    case SetMarketFilter(_) => {MarketSlot}
    case SetSort(_, _) => {SortColumnSlot, SortDirectionSlot}
    case SetColumnConfig(_) => {ColumnConfigSlot}
    case SetCustomScripts(_) => {ScriptsSlot}
    case Other(_) => {}
  }

  /** `s` and `t` hold the same value in `slot`. */
  predicate SameAt(s: State, t: State, slot: Slot) {
    match slot
    case StocksSlot => s.stocks == t.stocks
    case FilteredSlot => s.filteredStocks == t.filteredStocks
    case ColumnConfigSlot => s.columnConfig == t.columnConfig
    case MarketSlot => s.marketFilter == t.marketFilter
    case SearchSlot => s.searchTerm == t.searchTerm
    case SortColumnSlot => s.sortColumn == t.sortColumn
    case SortDirectionSlot => s.sortDirection == t.sortDirection
    case ScriptsSlot => s.customScripts == t.customScripts
    case LoadingSlot => s.loading == t.loading
    case ErrorSlot => s.error == t.error
  }

  /** `s` and `t` agree on every field outside `written`. */
  predicate AgreeOutside(s: State, t: State, written: set<Slot>) {
    forall slot :: slot !in written ==> SameAt(s, t, slot)
  }

  /** The state holds the payload of the action in the fields the action writes. */
  predicate Carries(s: State, a: Action) {
    match a
    case SetStocks(p) => s.stocks == p
    case SetFilteredStocks(p) => s.filteredStocks == p
    case SetLoading(p) => s.loading == p
    case SetError(p) => s.error == p
    case SetSearchTerm(p) => s.searchTerm == p
    case SetMarketFilter(p) => s.marketFilter == p
    case SetSort(c, d) => s.sortColumn == c && s.sortDirection == d
    case SetColumnConfig(p) => s.columnConfig == p
    case SetCustomScripts(p) => s.customScripts == p
    case Other(_) => true
  }

  /** `dashboardReducer`: replace the fields the action writes with its payload. */
  function Reduce(s: State, a: Action): (r: State)
    ensures Carries(r, a)
    ensures AgreeOutside(s, r, Writes(a))
  {
    match a
    case SetStocks(p) => s.(stocks := p)
    case SetFilteredStocks(p) => s.(filteredStocks := p)
    case SetLoading(p) => s.(loading := p)
    case SetError(p) => s.(error := p)
    case SetSearchTerm(p) => s.(searchTerm := p)
    case SetMarketFilter(p) => s.(marketFilter := p)
    case SetSort(c, d) => s.(sortColumn := c, sortDirection := d)
    case SetColumnConfig(p) => s.(columnConfig := p)
    case SetCustomScripts(p) => s.(customScripts := p)
    case Other(_) => s
  }

  /** Two states that agree on every slot are equal. */
  lemma SlotsDetermineState(s: State, t: State)
    requires forall slot :: SameAt(s, t, slot)
    ensures s == t
  {
    assert SameAt(s, t, StocksSlot) && SameAt(s, t, FilteredSlot) && SameAt(s, t, ColumnConfigSlot);
    assert SameAt(s, t, MarketSlot) && SameAt(s, t, SearchSlot) && SameAt(s, t, SortColumnSlot);
    assert SameAt(s, t, SortDirectionSlot) && SameAt(s, t, ScriptsSlot) && SameAt(s, t, LoadingSlot);
    assert SameAt(s, t, ErrorSlot);
  }

  /**
   * The reducer's contract determines its result: any state that carries the
   * payload and keeps every other field is the reducer's result.
   */
  lemma ReduceIsDeterminedByContract(s: State, a: Action, t: State)
    requires Carries(t, a) && AgreeOutside(s, t, Writes(a))
    ensures t == Reduce(s, a)
  {
    var r := Reduce(s, a);
    forall slot ensures SameAt(t, r, slot) {
      if slot !in Writes(a) {
        assert SameAt(s, t, slot) && SameAt(s, r, slot);
      }
    }
    SlotsDetermineState(t, r);
  }

  /** An action of an unknown type returns the state unchanged. */
  lemma UnknownActionKeepsState(s: State, actionType: string)
    ensures Reduce(s, Other(actionType)) == s
  {
  }

  /** Dispatching the same action twice is the same as dispatching it once. */
  lemma ReduceIdempotent(s: State, a: Action)
    ensures Reduce(Reduce(s, a), a) == Reduce(s, a)
  {
  }

  /** What an action leaves in a field it writes does not depend on the state it is applied to. */
  lemma WrittenSlotIgnoresState(s: State, t: State, a: Action, slot: Slot)
    requires slot in Writes(a)
    ensures SameAt(Reduce(s, a), Reduce(t, a), slot)
  {
  }

  /** Agreement on one field is transitive. */
  lemma SameAtTransitive(s: State, t: State, u: State, slot: Slot)
    requires SameAt(s, t, slot) && SameAt(t, u, slot)
    ensures SameAt(s, u, slot)
  {
  }

  /** Agreement on one field is symmetric. */
  lemma SameAtSymmetric(s: State, t: State, slot: Slot)
    requires SameAt(s, t, slot)
    ensures SameAt(t, s, slot)
  {
  }

  /** A later action that writes the same fields overrides an earlier one. */
  lemma LaterWriteWins(s: State, a: Action, b: Action)
    requires Writes(a) == Writes(b)
    ensures Reduce(Reduce(s, a), b) == Reduce(s, b)
  {
    var sa := Reduce(s, a);
    var lhs, rhs := Reduce(sa, b), Reduce(s, b);
    forall slot ensures SameAt(lhs, rhs, slot) {
      if slot in Writes(b) {
        WrittenSlotIgnoresState(sa, s, b, slot);
      } else {
        KeepsUnwritten(s, a, slot);
        KeepsUnwritten(sa, b, slot);
        KeepsUnwritten(s, b, slot);
        SameAtTransitive(s, sa, lhs, slot);
        SameAtSymmetric(s, lhs, slot);
        SameAtTransitive(lhs, s, rhs, slot);
      }
    }
    SlotsDetermineState(lhs, rhs);
  }

  /** An action keeps every field it does not write. */
  lemma KeepsUnwritten(s: State, a: Action, slot: Slot)
    requires slot !in Writes(a)
    ensures SameAt(s, Reduce(s, a), slot)
  {
  }

  /** With disjoint writes, both orders leave the same value in `slot`. */
  lemma CommuteAt(s: State, a: Action, b: Action, slot: Slot)
    requires Writes(a) !! Writes(b)
    ensures SameAt(Reduce(Reduce(s, a), b), Reduce(Reduce(s, b), a), slot)
  {
    var sa, sb := Reduce(s, a), Reduce(s, b);
    var ab, ba := Reduce(sa, b), Reduce(sb, a);
    if slot in Writes(a) {
      KeepsUnwritten(sa, b, slot);
      SameAtSymmetric(sa, ab, slot);
      WrittenSlotIgnoresState(s, sb, a, slot);
      SameAtTransitive(ab, sa, ba, slot);
    } else if slot in Writes(b) {
      KeepsUnwritten(sb, a, slot);
      WrittenSlotIgnoresState(sa, s, b, slot);
      SameAtTransitive(ab, sb, ba, slot);
    } else {
      KeepsUnwritten(s, a, slot);
      KeepsUnwritten(sa, b, slot);
      KeepsUnwritten(s, b, slot);
      KeepsUnwritten(sb, a, slot);
      SameAtTransitive(s, sa, ab, slot);
      SameAtTransitive(s, sb, ba, slot);
      SameAtSymmetric(s, ab, slot);
      SameAtTransitive(ab, s, ba, slot);
    }
  }

  /** Actions that write different fields can be dispatched in either order. */
  lemma DisjointActionsCommute(s: State, a: Action, b: Action)
    requires Writes(a) !! Writes(b)
    ensures Reduce(Reduce(s, a), b) == Reduce(Reduce(s, b), a)
  {
    forall slot ensures SameAt(Reduce(Reduce(s, a), b), Reduce(Reduce(s, b), a), slot) {
      CommuteAt(s, a, b, slot);
    }
    SlotsDetermineState(Reduce(Reduce(s, a), b), Reduce(Reduce(s, b), a));
  }

  /** The provider: the current state, changed only by dispatched actions. */
  class Provider {
    var state: State

    constructor ()
      ensures state == Initial
    {
      state := Initial;
    }

    method Dispatch(a: Action)
      modifies this
      ensures state == Reduce(old(state), a)
    {
      state := Reduce(state, a);
    }
  }

  const OutsideProvider: string := "useDashboard must be used within DashboardProvider"

  /** `useDashboard`: the provider's value, or the error raised outside a provider. */
  function UseDashboard(context: Option<Provider>): (r: Result<Provider>)
    ensures r.Ok? <==> context.Some?
    ensures r.Ok? ==> r.value == context.value
    ensures r.Err? ==> r.error == OutsideProvider
  {
    if context.Some? then Ok(context.value) else Err(OutsideProvider)
  }
}
