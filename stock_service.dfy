/**
 * Query construction of the stock data client (src/services/stockService.js):
 * a `URLSearchParams` object receives conditional `append` calls, and the
 * request URL is the endpoint, `?`, and the serialised parameters. The fetch
 * itself is not modelled.
 */
module StockService {
  import opened Common

  /** A parameter value before `URLSearchParams` turns it into a string. */
  datatype ParamValue = Str(s: string) | Int(n: int) | Bool(b: bool) | Null

  type Param = (string, ParamValue)

  function KeysOf(params: seq<Param>): (r: seq<string>)
    ensures |r| == |params| && forall i :: 0 <= i < |params| ==> r[i] == params[i].0
  {
    if params == [] then [] else [params[0].0] + KeysOf(params[1..])
  }

  /** `params.get(key)`: the first value appended under `key`. */
  function Lookup(params: seq<Param>, key: string): Option<ParamValue>
  {
    if params == [] then None
    else if params[0].0 == key then Some(params[0].1)
    else Lookup(params[1..], key)
  }

  /** With distinct keys, every parameter is what `get` finds under its key. */
  lemma {:induction false} LookupDistinct(params: seq<Param>)
    requires NoDuplicates(KeysOf(params))
    ensures forall i :: 0 <= i < |params| ==> Lookup(params, params[i].0) == Some(params[i].1)
  {
    if params != [] {
      var keys := KeysOf(params);
      assert KeysOf(params[1..]) == keys[1..];
      LookupDistinct(params[1..]);
      forall i | 1 <= i < |params| ensures params[i].0 != params[0].0 {
        assert keys[i] == params[i].0;
        assert params[1..][i - 1] == params[i];
      }
    }
  }

  /** The `URLSearchParams` object: its pairs, in insertion order. */
  class SearchParams {
    var pairs: seq<Param>

    /** `new URLSearchParams()`. */
    constructor ()
      ensures pairs == []
    {
      pairs := [];
    }

    /** `new URLSearchParams({ key: value })`. */
    constructor Single(key: string, value: ParamValue)
      ensures pairs == [(key, value)]
    {
      pairs := [(key, value)];
    }

    method Append(key: string, value: ParamValue)
      modifies this
      ensures pairs == old(pairs) + [(key, value)]
    {
      pairs := pairs + [(key, value)];
    }
  }

  /** A number option that may be absent is truthy when present and non-zero. */
  predicate IntTruthy(x: Option<int>) {
    x.Some? && x.value != 0
  }

  // One guarded `append` each: the pair it adds, or nothing.

  /** `if (options.x) params.append(key, options.x)` for a string option. */
  function StrStep(key: string, x: Option<string>): seq<Param> {
    if Truthy(x) then [(key, Str(x.value))] else []
  }

  /** `if (options.x) params.append(key, options.x)` for a number option. */
  function IntStep(key: string, x: Option<int>): seq<Param> {
    if IntTruthy(x) then [(key, Int(x.value))] else []
  }

  /** `if (options.x !== undefined) params.append(key, options.x)`. */
  function DefinedStep(key: string, x: Option<ParamValue>): seq<Param> {
    if x.Some? then [(key, x.value)] else []
  }

  /** `get` on a concatenation: the first part wins, otherwise the second is searched. */
  lemma {:induction false} LookupConcat(a: seq<Param>, b: seq<Param>, key: string)
    ensures Lookup(a + b, key) == if Lookup(a, key).Some? then Lookup(a, key) else Lookup(b, key)
  {
    if a == [] {
      assert a + b == b;
    } else {
      assert (a + b)[1..] == a[1..] + b;
      LookupConcat(a[1..], b, key);
    }
  }

  /** `get` over four consecutive groups of appends. */
  lemma LookupOfFour(a: seq<Param>, b: seq<Param>, c: seq<Param>, d: seq<Param>, key: string)
    ensures Lookup(a + b + c + d, key) ==
      if Lookup(a, key).Some? then Lookup(a, key)
      else if Lookup(b, key).Some? then Lookup(b, key)
      else if Lookup(c, key).Some? then Lookup(c, key)
      else Lookup(d, key)
  {
    LookupConcat(a + b + c, d, key);
    LookupConcat(a + b, c, key);
    LookupConcat(a, b, key);
  }

  lemma {:induction false} KeysOfConcat(a: seq<Param>, b: seq<Param>)
    ensures KeysOf(a + b) == KeysOf(a) + KeysOf(b)
  {
    if a != [] {
      assert (a + b)[1..] == a[1..] + b;
      KeysOfConcat(a[1..], b);
    } else {
      assert a + b == b;
    }
  }

  /**
   * Four groups whose keys are subsequences of four orders have, together,
   * keys that are a subsequence of the four orders in turn.
   */
  lemma KeysOfFour(a: seq<Param>, b: seq<Param>, c: seq<Param>, d: seq<Param>,
                   ka: seq<string>, kb: seq<string>, kc: seq<string>, kd: seq<string>)
    requires IsSubsequence(KeysOf(a), ka) && IsSubsequence(KeysOf(b), kb)
    requires IsSubsequence(KeysOf(c), kc) && IsSubsequence(KeysOf(d), kd)
    ensures IsSubsequence(KeysOf(a + b + c + d), ka + kb + kc + kd)
  {
    KeysOfConcat(a, b);
    KeysOfConcat(a + b, c);
    KeysOfConcat(a + b + c, d);
    SubsequenceConcat(KeysOf(a), ka, KeysOf(b), kb);
    SubsequenceConcat(KeysOf(a) + KeysOf(b), ka + kb, KeysOf(c), kc);
    SubsequenceConcat(KeysOf(a) + KeysOf(b) + KeysOf(c), ka + kb + kc, KeysOf(d), kd);
  }

  /** The options `fetchStockList` reads; every one may be undefined. */
  datatype ListOptions = ListOptions(
    marketCode: Option<string>,
    isActive: Option<ParamValue>,  // any value but undefined, `null` included
    limit: Option<int>,
    offset: Option<int>)

  const ListOrder: seq<string> := ["market_code", "is_active", "limit", "offset"]

  /** The pairs `fetchStockList` appends, one guarded step after another. */
  function ListQuery(options: ListOptions): seq<Param> {
    StrStep("market_code", options.marketCode) + DefinedStep("is_active", options.isActive)
      + IntStep("limit", options.limit) + IntStep("offset", options.offset)
  }

  /** Each list parameter is present exactly when its guard holds, with its option's value. */
  lemma ListQueryLookups(options: ListOptions)
    ensures Lookup(ListQuery(options), "market_code") ==
      if Truthy(options.marketCode) then Some(Str(options.marketCode.value)) else None
    ensures Lookup(ListQuery(options), "is_active") == options.isActive
    ensures Lookup(ListQuery(options), "limit") ==
      if IntTruthy(options.limit) then Some(Int(options.limit.value)) else None
    ensures Lookup(ListQuery(options), "offset") ==
      if IntTruthy(options.offset) then Some(Int(options.offset.value)) else None
  {
    var a, b := StrStep("market_code", options.marketCode), DefinedStep("is_active", options.isActive);
    var c, d := IntStep("limit", options.limit), IntStep("offset", options.offset);
    LookupOfFour(a, b, c, d, "market_code");
    LookupOfFour(a, b, c, d, "is_active");
    LookupOfFour(a, b, c, d, "limit");
    LookupOfFour(a, b, c, d, "offset");
  }

  /** The list parameters follow the append order, without duplicate keys, each found by its key. */
  lemma ListQueryOrdered(options: ListOptions)
    ensures IsSubsequence(KeysOf(ListQuery(options)), ListOrder)
    ensures NoDuplicates(KeysOf(ListQuery(options)))
    ensures forall i :: 0 <= i < |ListQuery(options)| ==>
      Lookup(ListQuery(options), ListQuery(options)[i].0) == Some(ListQuery(options)[i].1)
  {
    var a, b := StrStep("market_code", options.marketCode), DefinedStep("is_active", options.isActive);
    var c, d := IntStep("limit", options.limit), IntStep("offset", options.offset);
    KeysOfFour(a, b, c, d, ["market_code"], ["is_active"], ["limit"], ["offset"]);
    assert ["market_code"] + ["is_active"] + ["limit"] + ["offset"] == ListOrder;
    assert NoDuplicates(ListOrder);
    SubsequenceOfDistinct(KeysOf(ListQuery(options)), ListOrder);
    LookupDistinct(ListQuery(options));
  }

  /** The query parameters of `fetchStockList`: the object after its four guarded appends. */
  method ListParams(options: ListOptions) returns (params: seq<Param>)
    ensures params == ListQuery(options)
    ensures IsSubsequence(KeysOf(params), ListOrder) && NoDuplicates(KeysOf(params))
    ensures Lookup(params, "market_code") ==
      if Truthy(options.marketCode) then Some(Str(options.marketCode.value)) else None
    ensures Lookup(params, "is_active") == options.isActive
    ensures Lookup(params, "limit") ==
      if IntTruthy(options.limit) then Some(Int(options.limit.value)) else None
    ensures Lookup(params, "offset") ==
      if IntTruthy(options.offset) then Some(Int(options.offset.value)) else None
    ensures forall i :: 0 <= i < |params| ==> Lookup(params, params[i].0) == Some(params[i].1)
  {
    var sp := new SearchParams();
    if Truthy(options.marketCode) {
      sp.Append("market_code", Str(options.marketCode.value));
    }
    assert sp.pairs == StrStep("market_code", options.marketCode);
    if options.isActive.Some? {
      sp.Append("is_active", options.isActive.value);
    }
    assert sp.pairs == StrStep("market_code", options.marketCode) + DefinedStep("is_active", options.isActive);
    if IntTruthy(options.limit) {
      sp.Append("limit", Int(options.limit.value));
    }
    assert sp.pairs == StrStep("market_code", options.marketCode) + DefinedStep("is_active", options.isActive)
      + IntStep("limit", options.limit);
    if IntTruthy(options.offset) {
      sp.Append("offset", Int(options.offset.value));
    }
    params := sp.pairs;
    ListQueryLookups(options);
    ListQueryOrdered(options);
  }

  /** The options `fetchStockHistory` reads besides the symbol. */
  datatype HistoryOptions = HistoryOptions(
    startDate: Option<string>,
    endDate: Option<string>,
    limit: Option<int>)

  const HistoryOrder: seq<string> := ["symbol", "start_date", "end_date", "limit"]

  /** The pairs `fetchStockHistory` builds: the symbol, then three guarded steps. */
  function HistoryQuery(symbol: string, options: HistoryOptions): seq<Param> {
    [("symbol", Str(symbol))] + StrStep("start_date", options.startDate)
      + StrStep("end_date", options.endDate) + IntStep("limit", options.limit)
  }

  /** The symbol is always found; each optional parameter exactly when truthy, with its value. */
  lemma HistoryQueryLookups(symbol: string, options: HistoryOptions)
    ensures Lookup(HistoryQuery(symbol, options), "symbol") == Some(Str(symbol))
    ensures Lookup(HistoryQuery(symbol, options), "start_date") ==
      if Truthy(options.startDate) then Some(Str(options.startDate.value)) else None
    ensures Lookup(HistoryQuery(symbol, options), "end_date") ==
      if Truthy(options.endDate) then Some(Str(options.endDate.value)) else None
    ensures Lookup(HistoryQuery(symbol, options), "limit") ==
      if IntTruthy(options.limit) then Some(Int(options.limit.value)) else None
  {
    var a, b := [("symbol", Str(symbol))], StrStep("start_date", options.startDate);
    var c, d := StrStep("end_date", options.endDate), IntStep("limit", options.limit);
    LookupOfFour(a, b, c, d, "symbol");
    LookupOfFour(a, b, c, d, "start_date");
    LookupOfFour(a, b, c, d, "end_date");
    LookupOfFour(a, b, c, d, "limit");
  }

  /** The history parameters start with the symbol and follow the append order without duplicates. */
  lemma HistoryQueryOrdered(symbol: string, options: HistoryOptions)
    ensures |HistoryQuery(symbol, options)| >= 1 && HistoryQuery(symbol, options)[0] == ("symbol", Str(symbol))
    ensures IsSubsequence(KeysOf(HistoryQuery(symbol, options)), HistoryOrder)
    ensures NoDuplicates(KeysOf(HistoryQuery(symbol, options)))
  {
    var a, b := [("symbol", Str(symbol))], StrStep("start_date", options.startDate);
    var c, d := StrStep("end_date", options.endDate), IntStep("limit", options.limit);
    assert KeysOf(a) == ["symbol"];
    KeysOfFour(a, b, c, d, ["symbol"], ["start_date"], ["end_date"], ["limit"]);
    assert ["symbol"] + ["start_date"] + ["end_date"] + ["limit"] == HistoryOrder;
    assert NoDuplicates(HistoryOrder);
    SubsequenceOfDistinct(KeysOf(HistoryQuery(symbol, options)), HistoryOrder);
  }

  /** The query parameters of `fetchStockHistory`: the symbol first, then the optional ones. */
  method HistoryParams(symbol: string, options: HistoryOptions) returns (params: seq<Param>)
    ensures params == HistoryQuery(symbol, options)
    ensures |params| >= 1 && params[0] == ("symbol", Str(symbol))
    ensures IsSubsequence(KeysOf(params), HistoryOrder) && NoDuplicates(KeysOf(params))
    ensures Lookup(params, "symbol") == Some(Str(symbol))
    ensures Lookup(params, "start_date") ==
      if Truthy(options.startDate) then Some(Str(options.startDate.value)) else None
    ensures Lookup(params, "end_date") ==
      if Truthy(options.endDate) then Some(Str(options.endDate.value)) else None
    ensures Lookup(params, "limit") ==
      if IntTruthy(options.limit) then Some(Int(options.limit.value)) else None
  {
    var sp := new SearchParams.Single("symbol", Str(symbol));
    if Truthy(options.startDate) {
      sp.Append("start_date", Str(options.startDate.value));
    }
    assert sp.pairs == [("symbol", Str(symbol))] + StrStep("start_date", options.startDate);
    if Truthy(options.endDate) {
      sp.Append("end_date", Str(options.endDate.value));
    }
    assert sp.pairs == [("symbol", Str(symbol))] + StrStep("start_date", options.startDate)
      + StrStep("end_date", options.endDate);
    if IntTruthy(options.limit) {
      sp.Append("limit", Int(options.limit.value));
    }
    params := sp.pairs;
    HistoryQueryLookups(symbol, options);
    HistoryQueryOrdered(symbol, options);
  }

  // ---------------------------------------------------------------------
  // The request URL.

  const ApiBase: string := "http://qtfund.com/api"
  const ListEndpoint: string := ApiBase + "/stock-price/list"
  const HistoryEndpoint: string := ApiBase + "/stock-price/query"

  /** `String(value)` as `URLSearchParams.append` stores it. */
  function ValueText(v: ParamValue): string {
    match v
    case Str(s) => s
    case Int(n) => if n < 0 then "-" + NatText(-n) else NatText(n)
    case Bool(b) => if b then "true" else "false"
    case Null => "null"
  }

  /** `${params}`: `key=value` pairs joined by `&` (percent-encoding is not modelled). */
  function Serialize(params: seq<Param>): (r: string)
    ensures r == "" <==> params == []
    ensures params != [] ==> params[0].0 + "=" + ValueText(params[0].1) <= r
  {
    if params == [] then ""
    else
      var pair := params[0].0 + "=" + ValueText(params[0].1);
      if |params| == 1 then pair else pair + "&" + Serialize(params[1..])
  }

  /** The list request URL: the endpoint and `?` come first whatever the parameters. */
  function ListUrl(params: seq<Param>): (r: string)
    ensures ListEndpoint + "?" <= r
    ensures params == [] ==> r == ListEndpoint + "?"
  {
    ListEndpoint + "?" + Serialize(params)
  }

  function HistoryUrl(params: seq<Param>): (r: string)
    ensures HistoryEndpoint + "?" <= r
  {
    HistoryEndpoint + "?" + Serialize(params)
  }
}
