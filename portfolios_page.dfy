/**
 * The portfolio page (src/pages/PortfoliosPage.jsx): creating a portfolio
 * from the name field, and the two-holding preview with its "+N more" line.
 */
module PortfoliosPage {
  import opened Common

  datatype Holding = Holding(fundId: string, fundName: string, shares: real, avgCost: real, currentValue: real)

  datatype Portfolio = Portfolio(
    id: string,
    name: string,
    totalValue: real,
    totalCost: real,
    totalReturn: real,
    returnPercentage: real,
    holdings: seq<Holding>)

  /** A newly created portfolio: the name as typed, zero totals, no holdings. */
  function NewPortfolio(id: string, name: string): (p: Portfolio)
    ensures p.id == id && p.name == name && p.holdings == []
    ensures p.totalValue == 0.0 && p.totalCost == 0.0 && p.totalReturn == 0.0 && p.returnPercentage == 0.0
  {
    Portfolio(id, name, 0.0, 0.0, 0.0, 0.0, [])
  }

  /** `holdings.slice(0, 2)`. */
  function Preview(p: Portfolio): (r: seq<Holding>)
    ensures |r| == if |p.holdings| < 2 then |p.holdings| else 2
    ensures r == p.holdings[..|r|]
  {
    if |p.holdings| < 2 then p.holdings else p.holdings[..2]
  }

  /** The N of the "+N more holdings" line, shown only beyond two holdings. */
  function MoreCount(p: Portfolio): (r: Option<nat>)
    ensures r.Some? <==> |p.holdings| > 2
    ensures r.Some? ==> r.value > 0
  {
    if |p.holdings| > 2 then Some(|p.holdings| - 2) else None
  }

  /** The preview and the count together account for every holding exactly once. */
  lemma PreviewAndCountCoverHoldings(p: Portfolio)
    ensures |Preview(p)| + (if MoreCount(p).Some? then MoreCount(p).value else 0) == |p.holdings|
    ensures MoreCount(p).None? ==> Preview(p) == p.holdings
  {
  }

  class Page {
    var portfolios: seq<Portfolio>
    var loading: bool
    var showCreateModal: bool
    var newPortfolioName: string

    constructor ()
      ensures portfolios == [] && loading && !showCreateModal && newPortfolioName == ""
    {
      portfolios := [];
      loading := true;
      showCreateModal := false;
      newPortfolioName := "";
    }

    /** The delayed load: the list arrives and loading ends. */
    method ReceivePortfolios(list: seq<Portfolio>)
      modifies this`portfolios, this`loading
      ensures portfolios == list && !loading
    {
      portfolios := list;
      loading := false;
    }

    method OpenCreateModal()
      modifies this`showCreateModal
      ensures showCreateModal
    {
      showCreateModal := true;
    }

    /** The dialog's `onClose` and its Cancel button hide it and leave the typed name as it is. */
    method CloseCreateModal()
      modifies this`showCreateModal
      ensures !showCreateModal
    {
      showCreateModal := false;
    }

    method SetName(name: string)
      modifies this`newPortfolioName
      ensures newPortfolioName == name
    {
      newPortfolioName := name;
    }

    /**
     * `handleCreatePortfolio()`; `now` is `Date.now()`. A name that trims to
     * nothing changes nothing; otherwise the new portfolio is appended, the
     * field cleared and the modal closed.
     */
    method HandleCreatePortfolio(now: nat) returns (created: bool)
      modifies this`portfolios, this`newPortfolioName, this`showCreateModal
      ensures created <==> !IsBlank(old(newPortfolioName))
      ensures created ==>
        portfolios == old(portfolios) + [NewPortfolio(NatText(now), old(newPortfolioName))]
        && newPortfolioName == "" && !showCreateModal
      ensures !created ==>
        portfolios == old(portfolios) && newPortfolioName == old(newPortfolioName)
        && showCreateModal == old(showCreateModal)
    {
      TrimEmptyIffBlank(newPortfolioName);
      if Trim(newPortfolioName) != "" {
        var portfolio := NewPortfolio(NatText(now), newPortfolioName);
        portfolios := portfolios + [portfolio];
        newPortfolioName := "";
        showCreateModal := false;
        created := true;
      } else {
        created := false;
      }
    }
  }

  /** Creating never disturbs the portfolios already listed. */
  lemma CreateKeepsExisting(before: seq<Portfolio>, id: string, name: string, i: int)
    requires 0 <= i < |before|
    ensures (before + [NewPortfolio(id, name)])[i] == before[i]
    ensures (before + [NewPortfolio(id, name)])[|before|].holdings == []
  {
  }
}
