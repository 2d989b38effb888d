# QTFund dashboard — a Dafny model

This project models the client-side logic of the QTFund web front end, a
React dashboard for Chinese equities (Shanghai, Shenzhen and Beijing
markets) with fund and portfolio pages and a small stand-alone router
script. The model covers:

- the stock table: its comparator-driven sort, the header and row layout,
  the load of the stock list, and the loading / error / table precedence;
- the dashboard page's search and market filter;
- the column-settings panel and the market checkboxes;
- the shared dashboard state and its reducer;
- the query strings of the stock service;
- the number formatting rules;
- the technical indicators: momentum, moving average, rate of change and
  RSI;
- the script editor, script library and script validation;
- the two authentication providers, the authentication service and the
  route guard;
- the entry script's router, login form and logout;
- the fund search and the portfolio creation rules.

Conventions used throughout:

- Every network call is a parameter of type `CallOutcome<T>`: either
  `Returned(value)` or `Threw(message)`, where a missing `message` stands
  for an error whose `message` is undefined.
- Browser storage becomes a `SavedColumns` parameter.
- `Date.now()` becomes a natural-number parameter.
- State that React keeps in `useState` or `useReducer` is a field of a
  `class`, and each handler is a `method` that changes those fields.
- JavaScript truthiness is written out: `Truthy` for strings, `NumTruthy`
  for numbers, `JsonTruthy` for JSON values, `IdTruthy` for script ids.

Each source file has one module: `StockTable`, `DashboardPage`,
`ColumnSettings`, `MarketFilter`, `DashboardContext`, `StockService`,
`NumberFormat`, `CalculationService`, `ScriptService`, `ScriptEditor`,
`ScriptManager`, `AuthService`, `AuthContext` (src/context/AuthContext.jsx),
`UserAuthContext` (src/utils/authContext.js), `ProtectedRoute`,
`Router` (src/index.js), `FundsPage` and `PortfoliosPage`. Two further
modules hold shared definitions:

- `Common`: Option, Result, call outcomes, JSON values, truthiness, ASCII
  lower-casing, substring search, `trim`, subsequences and a
  multiset-exact filter.
- `Records`: the stock row, the cells its columns hold, column-config
  entries and script ids.

## Model

| member | source | states |
|---|---|---|
| DashboardContext.Reduce | src/context/DashboardContext.jsx:18-41 | the new state carries the action's payload in the fields that action writes, and agrees with the old state in every other field |
| DashboardContext.ReduceIsDeterminedByContract | src/context/DashboardContext.jsx:18-41 | any state that carries the payload and keeps every other field is exactly the reducer's result |
| DashboardContext.SlotsDetermineState | src/context/DashboardContext.jsx:5-16 | two dashboard states that agree on all ten fields are equal |
| DashboardContext.UnknownActionKeepsState | src/context/DashboardContext.jsx:38-39 | an action of an unknown type returns the state unchanged |
| DashboardContext.ReduceIdempotent | src/context/DashboardContext.jsx:18-41 | dispatching the same action twice equals dispatching it once |
| DashboardContext.WrittenSlotIgnoresState | src/context/DashboardContext.jsx:18-41 | what an action leaves in a field it writes is its payload, whatever the state it was applied to |
| DashboardContext.KeepsUnwritten | src/context/DashboardContext.jsx:18-41 | an action leaves every field it does not write as it was |
| DashboardContext.LaterWriteWins | src/context/DashboardContext.jsx:18-41 | a later action that writes the same fields fully overrides an earlier one |
| DashboardContext.CommuteAt | src/context/DashboardContext.jsx:18-41 | for actions with disjoint writes, both dispatch orders leave the same value in any one field |
| DashboardContext.DisjointActionsCommute | src/context/DashboardContext.jsx:18-41 | actions that write disjoint fields (for example `SET_STOCKS` then `SET_FILTERED_STOCKS`) commute |
| DashboardContext.Provider.constructor | src/context/DashboardContext.jsx:5-44 | the provider starts in the initial state: empty lists, markets SH, SZ, BJ, empty term, no sort, not loading, no error |
| DashboardContext.Provider.Dispatch | src/context/DashboardContext.jsx:44 | the new state is the reducer applied to the old state and the action |
| DashboardContext.UseDashboard | src/context/DashboardContext.jsx:53-59 | outside a provider, the result is the error "useDashboard must be used within DashboardProvider"; inside, it is the provider |
| Records.Field | src/components/dashboard/StockTable.jsx:54-55 | a present field belongs to one of the six column keys; symbol, name and market are text, and price, change and volume are numbers |
| Records.FieldKindPerColumn | src/components/dashboard/StockTable.jsx:54-55 | two rows' present values in one column are of the same kind |
| NumberFormat.FormatCurrency | src/utils/numberFormat.js:1-9 | null or undefined gives `--`; otherwise one CNY currency piece of the value with the given number of decimals |
| NumberFormat.FormatPercentage | src/utils/numberFormat.js:11-14 | null or undefined gives `--`; otherwise the fixed-decimal value followed by `%` |
| NumberFormat.FormatNumber | src/utils/numberFormat.js:16-22 | null or undefined gives `--`; otherwise one grouped zh-CN numeral piece |
| NumberFormat.FormatVolume | src/utils/numberFormat.js:24-29 | `--` iff missing; the `亿` suffix iff at least 10^8; `万` iff in [10^4, 10^8); otherwise the plain value. The suffixed forms carry the value divided by the unit with 2 decimals |
| StockService.KeysOf | src/services/stockService.js:4-8 | the keys of the parameter list, in order |
| StockService.LookupConcat | src/services/stockService.js:5-8 | `params.get` over two groups of appends: a key found in the first group wins, otherwise the second group is searched |
| StockService.LookupOfFour | src/services/stockService.js:5-8 | `params.get` over four consecutive groups of appends finds the key in the first group that holds it |
| StockService.LookupDistinct | src/services/stockService.js:5-8 | with distinct keys, every appended pair is found by its key |
| StockService.KeysOfConcat | src/services/stockService.js:4-8 | the keys of the concatenated lists are the concatenated keys |
| StockService.KeysOfFour | src/services/stockService.js:4-8 | four groups whose keys follow four orders have, together, keys that follow the four orders in turn |
| StockService.SearchParams.constructor | src/services/stockService.js:4 | `new URLSearchParams()` is empty |
| StockService.SearchParams.Single | src/services/stockService.js:22 | `new URLSearchParams({ symbol })` holds exactly that one pair |
| StockService.SearchParams.Append | src/services/stockService.js:5-8 | `append` adds the pair at the end and changes nothing else |
| StockService.ListQueryLookups | src/services/stockService.js:5-8 | market_code is found iff the market code is truthy, is_active iff the option is defined (`null` included), limit and offset iff nonzero, each with its option's value |
| StockService.ListQueryOrdered | src/services/stockService.js:4-8 | the list keys follow the order market_code, is_active, limit, offset without duplicates, and every pair is what `get` finds under its key |
| StockService.HistoryQueryLookups | src/services/stockService.js:22-25 | symbol is always found; start_date, end_date and limit are found iff truthy, with their values |
| StockService.HistoryQueryOrdered | src/services/stockService.js:22-25 | the history pairs start with the symbol and their keys follow symbol, start_date, end_date, limit without duplicates |
| StockService.ListParams | src/services/stockService.js:3-8 | the object ends up holding the four guarded appends' pairs in order; the keys are distinct, in the order market_code, is_active, limit, offset; each is present exactly when its guard holds (a truthy market code, a defined `is_active`, `null` included, a nonzero limit or offset) and then carries its option's value |
| StockService.HistoryParams | src/services/stockService.js:21-25 | the object holds the symbol pair and then the three guarded appends' pairs: the symbol comes first; start_date, end_date and limit follow, each present iff truthy, in that order and without duplicates |
| StockService.ListUrl | src/services/stockService.js:1-10 | the list URL always starts with `http://qtfund.com/api/stock-price/list?`, and is exactly that when there are no parameters |
| StockService.HistoryUrl | src/services/stockService.js:1-27 | the history URL always starts with `http://qtfund.com/api/stock-price/query?` |
| StockService.Serialize | src/services/stockService.js:10 | the query text is empty exactly when there are no parameters, and otherwise starts with the first `key=value` pair |
| StockTable.LexIrreflexive | src/components/dashboard/StockTable.jsx:61-63 | no string is greater than itself under code-point order |
| StockTable.LexAsymmetric | src/components/dashboard/StockTable.jsx:61-63 | string order is asymmetric |
| StockTable.LexTransitive | src/components/dashboard/StockTable.jsx:61-63 | string order is transitive |
| StockTable.LexTotal | src/components/dashboard/StockTable.jsx:61-63 | distinct strings are ordered one way or the other |
| StockTable.GreaterAsymmetric | src/components/dashboard/StockTable.jsx:61-63 | `a > b` and `b > a` never both hold |
| StockTable.GreaterNegTransitive | src/components/dashboard/StockTable.jsx:61-63 | not-greater is transitive among values of one column |
| StockTable.Compare | src/components/dashboard/StockTable.jsx:52-65 | the comparator returns -1, 0 or 1, and returns 0 exactly when there is no sort column |
| StockTable.InOrder | src/components/dashboard/StockTable.jsx:52-65 | the order the comparator stands for: no column puts every pair in order; otherwise rows without the key come after the rows with it, and present keys are ordered ascending or descending (its properties are proved in ComparatorAgreesWithOrder and InOrderTransitive) |
| StockTable.ComparatorAgreesWithOrder | src/components/dashboard/StockTable.jsx:52-65 | a non-positive result lets `a` come first and a positive one lets `b` come first: missing keys last in both directions, present keys ascending for `asc` and descending for `desc` |
| StockTable.InOrderTransitive | src/components/dashboard/StockTable.jsx:52-65 | the order the comparator induces is transitive |
| StockTable.Insert | src/components/dashboard/StockTable.jsx:52 | inserting a row adds exactly that row to the multiset of rows |
| StockTable.ConsSorted | src/components/dashboard/StockTable.jsx:52-65 | a row in order with every row of a sorted list can be put before them and the list stays sorted |
| StockTable.TailSorted | src/components/dashboard/StockTable.jsx:52-65 | the rows after the first of a sorted list are still sorted |
| StockTable.InsertSorted | src/components/dashboard/StockTable.jsx:52-65 | inserting by the comparator keeps a sorted list sorted |
| StockTable.SortRows | src/components/dashboard/StockTable.jsx:52-65 | the sorted rows are a permutation of the filtered rows and are sorted by the comparator's order |
| StockTable.NoColumnKeepsOrder | src/components/dashboard/StockTable.jsx:53 | without a sort column the rows keep their order |
| StockTable.NextSort | src/components/dashboard/StockTable.jsx:43-50 | a header click selects that column; on the current column it flips the direction, on another column it starts ascending |
| StockTable.ClickTwice | src/components/dashboard/StockTable.jsx:43-50 | a second click on the same header keeps the column and flips the first click's direction: back to the old direction on the sort column, descending on a new column |
| StockTable.LoadResultOf | src/components/dashboard/StockTable.jsx:17-41 | rows are loaded iff the code is 200, data is present and its items (the array itself, or `data.items`) are non-empty. Empty items give "No stock data available"; another code or no data gives "Failed to load stock data"; a thrown error gives its message |
| StockTable.Items | src/components/dashboard/StockTable.jsx:23-25 | the rows a response carries: `data` itself when it is an array, `data.items` otherwise, none when that is missing (its use is stated by LoadResultOf) |
| StockTable.VisibleKeysOrdered | src/components/dashboard/StockTable.jsx:89-90 | the visible keys keep the column order and are exactly the column keys the visible list includes |
| StockTable.VisibleKeysCons | src/components/dashboard/StockTable.jsx:89-90 | the visible keys are built one column at a time, in column order |
| StockTable.HeaderColumns | src/components/dashboard/StockTable.jsx:75-90 | the header shows, in table order, exactly the six columns the visible list includes |
| StockTable.Header | src/components/dashboard/StockTable.jsx:76-99 | each header cell has its column's caption and shows an arrow iff its column is the sort column |
| StockTable.Cells | src/components/dashboard/StockTable.jsx:108-139 | the row's cells are one per key, in key order, each showing that column's value |
| StockTable.CellsConcat | src/components/dashboard/StockTable.jsx:108-139 | the cells of concatenated key lists are the concatenated cells |
| StockTable.CellsOpt | src/components/dashboard/StockTable.jsx:108-139 | one optional cell is shown iff its column is |
| StockTable.HeaderColumnsUnrolled | src/components/dashboard/StockTable.jsx:75-90 | the header columns are the six optional columns in table order |
| StockTable.RowCellsMatchHeader | src/components/dashboard/StockTable.jsx:89-139 | each row's six guarded cells line up, column by column, with the header |
| StockTable.RowCells | src/components/dashboard/StockTable.jsx:106-139 | the six cells, each present iff its own `visibleColumns.includes` test holds, in table order (that they line up with the header is RowCellsMatchHeader) |
| StockTable.Table.constructor | src/components/dashboard/StockTable.jsx:8-11 | the table starts loading, with no error, no sort column and ascending direction |
| StockTable.Table.LoadStocks | src/components/dashboard/StockTable.jsx:17-41 | the request asks for `limit=200` only. Loading ends on every path. A load replaces both the stock list and the filtered list; a failure sets its message and leaves the dashboard state alone |
| StockTable.Table.HandleSort | src/components/dashboard/StockTable.jsx:43-50 | the sort state becomes `NextSort` of the old one |
| StockTable.Table.SortedStocks | src/components/dashboard/StockTable.jsx:52-65 | the rows shown are a sorted permutation of the filtered rows |
| StockTable.Table.Render | src/components/dashboard/StockTable.jsx:67-146 | loading wins over a truthy error, which wins over the table, shown whenever neither applies. Header cell i is the `Header` of the i-th visible column with the current sort arrow; row i is the `RowCells` of the i-th sorted row; there is one row per filtered row. The "No stocks to display" notice appears iff there are no rows |
| ColumnSettings.InitialColumns | src/components/dashboard/ColumnSettings.jsx:4-11 | six entries in table order, labelled Symbol to Market, each visible iff the page's list includes its key |
| ColumnSettings.Keys | src/components/dashboard/ColumnSettings.jsx:30 | the keys of the entries, in order |
| ColumnSettings.ReportedKeys | src/components/dashboard/ColumnSettings.jsx:30-38 | the reported keys keep entry order and are exactly the keys of visible entries |
| ColumnSettings.ReportedKeysAreVisibleKeys | src/components/dashboard/ColumnSettings.jsx:32-38 | the report is the `filter(col => col.visible).map(col => col.key)` list itself: order and repeated keys included |
| ColumnSettings.ToggleColumn | src/components/dashboard/ColumnSettings.jsx:26-28 | entries with the key flip their visibility; every other entry is unchanged |
| ColumnSettings.ResetColumns | src/components/dashboard/ColumnSettings.jsx:36 | every entry becomes visible, all else unchanged |
| ColumnSettings.ToggleTwiceRestores | src/components/dashboard/ColumnSettings.jsx:26-28 | toggling the same key twice restores the list |
| ColumnSettings.ToggleKeepsOtherReports | src/components/dashboard/ColumnSettings.jsx:25-31 | a toggle does not change whether any other key is reported |
| ColumnSettings.SameKeySameIndex | src/components/dashboard/ColumnSettings.jsx:25-31 | with distinct keys, two entries carrying the same key are the same entry |
| ColumnSettings.ReportedAtOnlyIndex | src/components/dashboard/ColumnSettings.jsx:25-31 | when one entry alone carries a key, the key is reported exactly when that entry is visible |
| ColumnSettings.ToggleFlipsOwnReport | src/components/dashboard/ColumnSettings.jsx:25-31 | when one entry alone carries the key, toggling it flips whether the key is reported |
| ColumnSettings.ToggleFlipsReported | src/components/dashboard/ColumnSettings.jsx:25-31 | with distinct keys, a toggle adds or removes exactly that key from the reported list |
| ColumnSettings.ResetReportsAllKeys | src/components/dashboard/ColumnSettings.jsx:35-39 | after a reset, every key is reported, in order |
| ColumnSettings.InitialReportsVisible | src/components/dashboard/ColumnSettings.jsx:4-11 | the initial panel reports exactly the page's visible columns that are table columns |
| ColumnSettings.Panel.constructor | src/components/dashboard/ColumnSettings.jsx:4-11 | the panel starts with the initial entries and nothing stored |
| ColumnSettings.Panel.LoadSaved | src/components/dashboard/ColumnSettings.jsx:13-23 | a parsed saved configuration replaces the entries; a missing or unparsable one changes nothing |
| ColumnSettings.Panel.HandleToggle | src/components/dashboard/ColumnSettings.jsx:25-33 | the entries are toggled, their visible keys are reported, and the new list is stored |
| ColumnSettings.Panel.HandleReset | src/components/dashboard/ColumnSettings.jsx:35-41 | every entry becomes visible, all keys are reported, and the new list is stored |
| MarketFilter.ToggleMarket | src/components/dashboard/MarketFilter.jsx:10-15 | toggling a selected market removes every copy of it and keeps the others in order with their counts; toggling an unselected one appends it |
| MarketFilter.ToggleKeepsOthers | src/components/dashboard/MarketFilter.jsx:10-15 | a toggle never changes whether another market is selected |
| MarketFilter.ToggleFlipsCode | src/components/dashboard/MarketFilter.jsx:10-15 | a toggle flips whether that market is selected |
| MarketFilter.ToggleAbsentTwice | src/components/dashboard/MarketFilter.jsx:10-15 | adding and then removing a market restores the selection |
| MarketFilter.CheckedBoxes | src/components/dashboard/MarketFilter.jsx:4-28 | one checkbox per market (SH, SZ, BJ), checked iff selected |
| DashboardPage.FilterStocks | src/pages/DashboardPage.jsx:22-31 | the filtered rows keep their order and are exactly the rows that match the search and the market, each with its full multiplicity |
| DashboardPage.MatchesSearch | src/pages/DashboardPage.jsx:24-26 | an empty term, or a term found in the lower-cased symbol or the lower-cased name; a missing field never matches (stated by SearchIgnoresTermCase, MissingFieldsNeverMatch and SymbolHitIsKept) |
| DashboardPage.MatchesMarket | src/pages/DashboardPage.jsx:28 | the row's market code is present and among the selected markets (stated by EmptyTermFiltersByMarket) |
| DashboardPage.EmptyTermFiltersByMarket | src/pages/DashboardPage.jsx:24 | with an empty term, the filter keeps exactly the rows of selected markets |
| DashboardPage.MissingFieldsNeverMatch | src/pages/DashboardPage.jsx:25-26 | a row with neither symbol nor name never matches a non-empty term |
| DashboardPage.SearchIgnoresTermCase | src/pages/DashboardPage.jsx:25-26 | lower-casing the term does not change what matches |
| DashboardPage.SymbolHitIsKept | src/pages/DashboardPage.jsx:23-30 | a term occurring in the lower-cased symbol keeps a row of a selected market |
| DashboardPage.Page.constructor | src/pages/DashboardPage.jsx:10-20 | all six columns visible, settings hidden, empty term, markets SH, SZ, BJ |
| DashboardPage.Page.ApplyFilters | src/pages/DashboardPage.jsx:22-34 | only the dashboard state's filtered rows change, to the filter of its stocks |
| DashboardPage.Page.OnSearchChange | src/pages/DashboardPage.jsx:22-67 | the term is stored and the filtered rows are recomputed with it |
| DashboardPage.Page.OnMarketToggle | src/pages/DashboardPage.jsx:22-71 | the selection is toggled and the filtered rows are recomputed with it |
| DashboardPage.Page.LoadSavedColumns | src/pages/DashboardPage.jsx:36-47 | a parsed configuration shows the keys of its visible entries; otherwise the columns are unchanged |
| DashboardPage.Page.OnColumnsChange | src/pages/DashboardPage.jsx:76 | the panel's reported keys become the visible columns |
| DashboardPage.Page.ToggleColumnSettings | src/pages/DashboardPage.jsx:59-61 | the settings panel's visibility flips |
| CalculationService.Momentum | src/services/calculationService.js:1-12 | 0 without a stock or a truthy close. Null without 26 history entries or a truthy close 26 entries back. Otherwise a value |
| CalculationService.RateOfChange | src/services/calculationService.js:22-28 | null iff either price is missing; 0 for a zero past price; otherwise the percentage change `(c - p) / p * 100` |
| CalculationService.MomentumIsRateOfChange | src/services/calculationService.js:1-28 | the momentum formula `(c / p - 1) * 100` equals the rate of change from the close 26 entries back |
| CalculationService.MomentumValue | src/services/calculationService.js:36-54 | the rate of change from the close `lag` entries back; with a positive past close it is positive exactly when the price rose and zero exactly when it did not move |
| CalculationService.MovingAverage | src/services/calculationService.js:14-20 | a value iff the history exists with at least `period` entries; that value times `period` is the sum of the last `period` closes, with missing ones counted as 0 |
| CalculationService.WindowSum | src/services/calculationService.js:18 | the `reduce` over a window, a missing or zero close counting 0 (its bounds are WindowSumBounds) |
| CalculationService.WindowSumBounds | src/services/calculationService.js:18 | a window sum lies between the length times the smallest close and the length times the largest |
| CalculationService.MovingAverageBetween | src/services/calculationService.js:14-20 | the moving average lies between the smallest and the largest close of its window |
| CalculationService.CalculateIndicators | src/services/calculationService.js:30-66 | nothing is computed without a truthy close and a history. `momentum_26`, `_29`, `_31` and `_34` are present iff that many entries exist and the close that far back is truthy, and each is then the rate of change from it. `ma_20` and `ma_50` are present iff that many entries exist, and are then the moving average |
| CalculationService.SumsNonNegative | src/services/calculationService.js:74-82 | the gain and loss sums are never negative |
| CalculationService.RsiBounded | src/services/calculationService.js:68-87 | the RSI lies in [0, 100] |
| CalculationService.RsiOf | src/services/calculationService.js:68-87 | the index the source computes: 50 for a short history; otherwise 100 without losses, else `100 - 100 / (1 + avgGain / avgLoss)` (its range is RsiBounded, its loop CalculateRsi) |
| CalculationService.NoLossesGive100 | src/services/calculationService.js:82-84 | a window in which every change is a rise gives RSI 100 |
| CalculationService.CalculateRsi | src/services/calculationService.js:68-87 | the loop computes the RSI of its specification: 50 with fewer than `period + 1` prices, 100 with no losses, otherwise `100 - 100 / (1 + avgGain / avgLoss)`, always within [0, 100] |
| ScriptService.ValidateScript | src/services/scriptService.js:22-32 | "Script cannot be empty" iff the script is missing or blank; "Script must include a return statement" iff it is non-blank without the substring `return`; valid iff non-blank with it |
| ScriptService.UpperCaseReturnIsRefused | src/services/scriptService.js:27 | the `return` check is case-sensitive |
| ScriptService.BodyOf | src/services/scriptService.js:6-10 | the body is by id iff the id is truthy, and otherwise carries the script; column name and symbols are passed through |
| ScriptService.FalsyIdSendsScript | src/services/scriptService.js:8-10 | an id of 0 or the empty string sends the script text instead |
| ScriptEditor.ColumnOrDefault | src/components/dashboard/ScriptEditor.jsx:24 | the column name, or "Custom Column" when it is empty; never empty |
| ScriptEditor.EditorConfig | src/components/dashboard/ScriptEditor.jsx:22-26 | the request the editor builds: the script text, the column name or its default, an empty symbol list, no script id (its body is EditorSendsInline) |
| ScriptEditor.EditorSendsInline | src/components/dashboard/ScriptEditor.jsx:22-26 | the editor always sends the script text with no stock symbols |
| ScriptEditor.Editor.constructor | src/components/dashboard/ScriptEditor.jsx:5-8 | empty script and column name, no error, not loading |
| ScriptEditor.Editor.HandleExecute | src/components/dashboard/ScriptEditor.jsx:10-38 | an invalid script sets the validator's message and sends nothing. A valid one sends the inline body. Code 200 delivers `data` to the page; another code sets the message or "Script execution failed"; a thrown error sets its message. Loading ends on every path |
| ScriptManager.LoadEffectOf | src/components/dashboard/ScriptManager.jsx:13-26 | the scripts are replaced iff the code is 200 and `data.items` is present. Code 200 with no `data` records the TypeError message of reading `items`; code 200 with `data` but no `items` keeps the list; another code keeps it too. A thrown error records its message |
| ScriptManager.EmptyItemsReplace | src/components/dashboard/ScriptManager.jsx:18 | an empty item list still replaces the scripts |
| ScriptManager.Manager.constructor | src/components/dashboard/ScriptManager.jsx:5-7 | no scripts, loading, no error |
| ScriptManager.Manager.LoadScripts | src/components/dashboard/ScriptManager.jsx:13-26 | loading ends; the scripts and error follow `LoadEffectOf` |
| ScriptManager.Manager.HandleDelete | src/components/dashboard/ScriptManager.jsx:28-35 | a successful delete reloads the list, and the error is then the reload's message when the reload fails and is cleared otherwise; a failed delete records its message and keeps the list and the loading flag |
| ScriptManager.Manager.View | src/components/dashboard/ScriptManager.jsx:37-72 | loading wins over a truthy error; then "no saved scripts" iff the list is empty, else the list |
| AuthService.LoginRequest | src/services/authService.js:7-11 | the login body carries the credentials and `use_cookie: true` |
| AuthService.Login | src/services/authService.js:5-15 | the response is returned, or the failure rethrown unchanged |
| AuthService.Logout | src/services/authService.js:18-24 | never throws |
| AuthService.CheckStatus | src/services/authService.js:26-33 | never throws; the response, or null on failure |
| AuthService.FailedCheckLooksLikeNull | src/services/authService.js:26-33 | a failed check cannot be told apart from a null response |
| AuthService.TestApiCall | src/services/authService.js:35-42 | the response is returned, or the failure rethrown unchanged |
| AuthContext.Provider.constructor | src/context/AuthContext.jsx:17-19 | not authenticated, not loading, no error |
| AuthContext.Provider.Login | src/context/AuthContext.jsx:22-35 | the outcome is returned or rethrown as is. Success authenticates with no error. Failure stores the message or "Login failed" and leaves authentication unchanged. Loading ends either way |
| AuthContext.Provider.Logout | src/context/AuthContext.jsx:37-48 | success signs out and navigates to `/login`; failure changes neither; loading ends either way |
| AuthContext.Provider.CheckAuthStatus | src/context/AuthContext.jsx:50-59 | authenticated iff the response is not null; a thrown error signs out and returns null |
| AuthContext.LogoutWithService | src/context/AuthContext.jsx:37-48 | over the real service, which never throws, logout always signs out and navigates to `/login` |
| AuthContext.CheckWithService | src/context/AuthContext.jsx:50-59 | over the real service, a failed status request signs out and yields null |
| AuthContext.UseAuth | src/context/AuthContext.jsx:8-14 | outside a provider, the result is the error "useAuth must be used within AuthProvider" |
| UserAuthContext.UserOf | src/utils/authContext.js:35 | a `null` response throws the TypeError of reading `user`; otherwise the user is `data.user` when truthy, else `{username}` from the credentials |
| UserAuthContext.PrimitiveResponseUsesUsername | src/utils/authContext.js:35 | a number response has no `user`, so `{username}` stands in; a `null` response throws |
| UserAuthContext.Provider.constructor | src/utils/authContext.js:7-9 | no user, loading, not authenticated |
| UserAuthContext.Provider.CheckAuth | src/utils/authContext.js:11-27 | returns true and authenticates iff the check succeeds; failure also clears the user; loading ends |
| UserAuthContext.Provider.Login | src/utils/authContext.js:33-38 | a non-null response stores `UserOf`, authenticates and returns the response; a `null` response throws the TypeError and a rejection propagates, and both change nothing |
| UserAuthContext.Provider.Logout | src/utils/authContext.js:40-44 | success clears the user and signs out; a rejection propagates and changes nothing |
| UserAuthContext.UseAuth | src/utils/authContext.js:58-64 | outside a provider, the result is the error "useAuth must be used within AuthProvider" |
| ProtectedRoute.Guard | src/components/ProtectedRoute.jsx:5-17 | loading shows the loading screen. Otherwise no session redirects to `/login` with `replace` and the current location as `from`, and a session renders the children; each outcome holds iff its condition does |
| ProtectedRoute.NoSessionNoChildren | src/components/ProtectedRoute.jsx:9-17 | children never render without a session |
| ProtectedRoute.LoadingIgnoresSession | src/components/ProtectedRoute.jsx:9-11 | while loading, the session value does not matter |
| Router.Resolve | src/index.js:36-44 | the exact path's page, else the root page, else 404, which happens iff neither is registered |
| Router.PathPart | src/index.js:32 | a prefix of the URL free of `?` and `#`, stopping exactly at the first of them |
| Router.Directory | src/index.js:32 | the prefix of the pathname through its last `/`, with no `/` after it |
| Router.PathPartOfPlain | src/index.js:32 | a URL without query or fragment is all path |
| Router.PathPartStopsAtDelimiter | src/index.js:32 | a query or fragment after the path is dropped |
| Router.DirectoryOfSegment | src/index.js:32 | the directory of `dir/segment` is `dir/` |
| Router.QueryIsIgnored | src/index.js:32-37 | an absolute path with a query or fragment lands on the path alone, whatever the current location |
| Router.RelativeReplacesSegment | src/index.js:32-37 | a relative path replaces the last segment of the current location |
| Router.EmptyTableIsNotFound | src/index.js:6-44 | with no routes, every path is a 404 |
| Router.RootRulesOutNotFound | src/index.js:36-44 | once `/` is registered, no path is a 404 |
| Router.AppRoutesResolve | src/index.js:238-240 | `/`, `/login` and `/dashboard` show their pages; any other path shows the home page |
| Router.SimpleRouter.constructor | src/index.js:6-29 | an empty table; if the document is ready, the current path is resolved at once, to 404 |
| Router.SimpleRouter.AddRoute | src/index.js:11-13 | sets or replaces the handler of exactly that path; other routes are unchanged |
| Router.SimpleRouter.HandleRoute | src/index.js:36-44 | the screen becomes the resolution of the current path |
| Router.SimpleRouter.Navigate | src/index.js:31-34 | the location becomes the pathname `pushState` gives the path against the old location, and the screen its resolution |
| Router.SimpleRouter.OnPopState | src/index.js:16-18 | a history move resolves the new location |
| Router.Start | src/index.js:238-246 | the script registers the three pages and resolves the current path, never to 404 |
| Router.RedirectTarget | src/index.js:115-116 | the `redirect` parameter when non-empty, otherwise `/dashboard` |
| Router.LoginMessage | src/index.js:109-127 | success, "Login failed: " with `data.error` or "Unknown error", or "Login failed: Network error" when the request or its JSON fails |
| Router.SubmitLogin | src/index.js:89-128 | posts the credentials with `use_cookie: true`; on success the location becomes the pathname the redirect target resolves to and the screen its page, otherwise nothing moves |
| Router.Logout | src/index.js:189-199 | whether the request succeeds or fails, the login page is shown |
| Router.ApiTestLine | src/index.js:201-217 | success; the status with `message`, `error` or "Unknown error"; or the rejection's message |
| Router.AuthStatusLabel | src/index.js:219-235 | nothing without the user-info element; otherwise "Authenticated", "Not authenticated" or "Error checking status" |
| FundsPage.FilterFunds | src/pages/FundsPage.jsx:67-71 | the funds kept are, in order and with multiplicity, exactly those whose lower-cased name or code contains the lower-cased term |
| FundsPage.EmptyTermKeepsAll | src/pages/FundsPage.jsx:67-71 | an empty term keeps every fund |
| FundsPage.CodeHitIsKept | src/pages/FundsPage.jsx:70 | a fund whose lower-cased code contains the lower-cased term is listed |
| FundsPage.SignPrefix | src/pages/FundsPage.jsx:101-110 | `+` iff the value is at least 0, otherwise nothing |
| FundsPage.Page.constructor | src/pages/FundsPage.jsx:11-15 | no funds, loading, empty term, nothing selected, modal closed |
| FundsPage.Page.ReceiveFunds | src/pages/FundsPage.jsx:61-64 | the list arrives and loading ends |
| FundsPage.Page.SetSearchTerm | src/pages/FundsPage.jsx:154 | the typed text becomes the search term |
| FundsPage.Page.HandleRowClick | src/pages/FundsPage.jsx:73-76 | the clicked fund is selected and the modal opens |
| FundsPage.Page.CloseModal | src/pages/FundsPage.jsx:164 | the detail modal closes |
| FundsPage.Page.Rows | src/pages/FundsPage.jsx:67-71 | the table shows the funds matching the current term, in order |
| PortfoliosPage.NewPortfolio | src/pages/PortfoliosPage.jsx:61-69 | a new portfolio has the given id and name, zero totals and no holdings |
| PortfoliosPage.Preview | src/pages/PortfoliosPage.jsx:125 | at most the first two holdings, as a prefix |
| PortfoliosPage.MoreCount | src/pages/PortfoliosPage.jsx:131-134 | the "+N more" line appears iff there are more than two holdings |
| PortfoliosPage.PreviewAndCountCoverHoldings | src/pages/PortfoliosPage.jsx:125-134 | the previewed holdings plus N account for every holding |
| PortfoliosPage.Page.constructor | src/pages/PortfoliosPage.jsx:10-13 | no portfolios, loading, modal closed, empty name |
| PortfoliosPage.Page.ReceivePortfolios | src/pages/PortfoliosPage.jsx:51-56 | the mock list arrives and loading ends |
| PortfoliosPage.Page.OpenCreateModal | src/pages/PortfoliosPage.jsx:87 | the create dialog opens |
| PortfoliosPage.Page.CloseCreateModal | src/pages/PortfoliosPage.jsx:152-157 | the dialog's close and Cancel hide it |
| PortfoliosPage.Page.SetName | src/pages/PortfoliosPage.jsx:169 | the typed text becomes the new portfolio's name |
| PortfoliosPage.Page.HandleCreatePortfolio | src/pages/PortfoliosPage.jsx:59-74 | creates iff the name is not blank. A creation appends one portfolio with the untrimmed name and `Date.now()` as id, clears the name and closes the modal; otherwise nothing changes |
| PortfoliosPage.CreateKeepsExisting | src/pages/PortfoliosPage.jsx:70 | creating leaves the existing portfolios in place and adds one with no holdings |

## Left out

- HTTP, `fetch`, `response.json()`, browser storage and `JSON.parse` are not modelled; their outcomes are parameters. A parsed configuration that is not a list of entries is not modelled either; only a parse that throws counts as unparsable.
- Timers are not modelled: the redirect delay after login, the delayed mock loads of the fund and portfolio pages, and the search-bar debounce. Neither is the race between overlapping stock fetches.
- React rendering order is not modelled: effects run when the model's method is called.
- ScriptManager.Manager.HandleDelete: the reload that `handleDelete` starts without awaiting is modelled as finishing before the handler returns.
- Floating point is not modelled. Numbers are exact reals, so NaN, infinities and rounding are absent. Digit output from `toFixed`, `toString` and `Intl.NumberFormat` is kept as an abstract piece carrying the value and the decimals.
- CalculationService.MovingAverage requires `period > 0`. Its only callers pass 20 and 50. With a zero period, `slice(-0)` keeps the whole history and the sum is divided by 0, which gives ±Infinity (NaN for a zero sum); reals cannot express either.
- CalculationService.CalculateRsi requires `period > 0`. Nothing in the source calls `calculateRSI`; its default period is 14. With a zero period and a non-empty list, `0 / 0` makes the result NaN, which reals cannot express.
- CalculationService.CalculateIndicators takes a stock value. A null stock makes the source throw on `stock.close_price`, and that is not modelled.
- Strings are sequences of code points. `toLowerCase` is ASCII-only; `trim` uses the JavaScript white-space and line-terminator set. String comparison is code-point order rather than UTF-16 code-unit order.
- StockTable.Compare: values of different kinds in one column compare as not greater. The row type never puts them in one column.
- StockTable.SortRows: the order among rows the comparator considers tied is engine-defined in JavaScript. The model fixes one stable order. It does not model the engine's behaviour with an inconsistent comparator (a null key against itself returns 1).
- ScriptManager.LoadEffectOf: the message for a missing `data` is V8's TypeError wording. The difference between a `null` and an `undefined` `data` in that message is not modelled.
- Percent-encoding of query values, and `fetchStockInfo`, which builds its URL by plain concatenation, are not modelled.
- The custom-calculation endpoint URL and `script_ids` are not modelled; the script service is modelled from the request body on.
- `authService.js` imports an `apiClient` that src/services/api.js does not export. Each call is treated as an opaque outcome, and the header merging in api.js is not modelled.
- AuthContext's `testApiCall` passes the service outcome through unchanged; it is the same as AuthService.TestApiCall and has no separate member.
- HTML markup, CSS classes (including the red/green colour of price changes and returns), icons, the risk-level colour map and mock data are not modelled.
- The innerHTML of src/index.js and the forms it builds are not modelled; the router's pages are named values.
- Router.SimpleRouter.Navigate and Router.SubmitLogin: the pathname `pushState` leaves is modelled as the path part before `?` or `#`, taken as is when it starts with `/` and otherwise appended to the current directory. Dot segments, `//` authorities, scheme-qualified URLs (a cross-origin one makes `pushState` throw) and percent-encoding of the pathname are not modelled.
- Router.Resolve: route lookup on a plain object would also find inherited property names such as `constructor`. The model's table holds only added routes.
