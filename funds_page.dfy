/**
 * The fund list page (src/pages/FundsPage.jsx): the case-insensitive search
 * over name and code, the row click that opens the detail view, and the
 * sign shown before a change or a return.
 */
module FundsPage {
  import opened Common

  datatype Fund = Fund(
    id: string,
    code: string,
    name: string,
    kind: string,
    netValue: real,
    dailyChange: real,
    yearReturn: real,
    riskLevel: string)

  /** The filter predicate: the lower-cased name or code contains the lower-cased term. */
  predicate MatchesFund(fund: Fund, term: string) {
    Contains(Lower(fund.name), Lower(term)) || Contains(Lower(fund.code), Lower(term))
  }

  /** `filteredFunds`: the matching funds, in their original order. */
  function FilterFunds(funds: seq<Fund>, term: string): (r: seq<Fund>)
    ensures IsSubsequence(r, funds)
    ensures forall f :: f in r <==> f in funds && MatchesFund(f, term)
    ensures forall f :: multiset(r)[f] == if MatchesFund(f, term) then multiset(funds)[f] else 0
  {
    var r := Filter(funds, f => MatchesFund(f, term));
    assert forall f :: f in r <==> multiset(r)[f] > 0;
    assert forall f :: f in funds <==> multiset(funds)[f] > 0;
    r
  }

  /** An empty search keeps every fund. */
  lemma EmptyTermKeepsAll(funds: seq<Fund>)
    ensures FilterFunds(funds, "") == funds
  {
    forall f | f in funds ensures MatchesFund(f, "") {
      ContainsEmpty(Lower(f.name));
    }
    FilterAllPass(funds, f => MatchesFund(f, ""));
  }

  /** A fund whose code occurs, in any case, in the search term's case-folding is found. */
  lemma CodeHitIsKept(funds: seq<Fund>, term: string, i: int, at: int)
    requires 0 <= i < |funds| && OccursAt(Lower(term), Lower(funds[i].code), at)
    ensures funds[i] in FilterFunds(funds, term)
  {
    ContainsIffOccurs(Lower(funds[i].code), Lower(term));
  }

  /** `value >= 0 ? '+' : ''`, for the daily change and the year-to-date return. */
  function SignPrefix(value: real): (r: string)
    ensures r == "+" <==> value >= 0.0
    ensures r == "" <==> value < 0.0
  {
    if value >= 0.0 then "+" else ""
  }

  class Page {
    var funds: seq<Fund>
    var loading: bool
    var searchTerm: string
    var selectedFund: Option<Fund>
    var showModal: bool

    constructor ()
      ensures funds == [] && loading && searchTerm == "" && selectedFund == None && !showModal
    {
      funds := [];
      loading := true;
      searchTerm := "";
      selectedFund := None;
      showModal := false;
    }

    /** The delayed load: the list arrives and loading ends. */
    method ReceiveFunds(list: seq<Fund>)
      modifies this`funds, this`loading
      ensures funds == list && !loading
    {
      funds := list;
      loading := false;
    }

    method SetSearchTerm(term: string)
      modifies this`searchTerm
      ensures searchTerm == term
    {
      searchTerm := term;
    }

    /** `handleRowClick(fund)`: select the fund and open its details. */
    method HandleRowClick(fund: Fund)
      modifies this`selectedFund, this`showModal
      ensures selectedFund == Some(fund) && showModal
    {
      selectedFund := Some(fund);
      showModal := true;
    }

    /** The modal's close button; the selection stays. */
    method CloseModal()
      modifies this`showModal
      ensures !showModal
    {
      showModal := false;
    }

    /** The rows the table shows. */
    function Rows(): (r: seq<Fund>)
      reads this
      ensures IsSubsequence(r, funds)
      ensures forall f :: f in r <==> f in funds && MatchesFund(f, searchTerm)
    {
      FilterFunds(funds, searchTerm)
    }
  }
}
