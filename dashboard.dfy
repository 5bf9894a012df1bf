/**
  The dashboard page: the session state it keeps (onboarding flag, profile,
  active tab, strategy selection, search and filters), the handlers that
  change it, and the views it derives from the fixture collections.
*/
module Dashboard {
  import opened Wrappers
  import opened StockData
  import opened Collections
  import opened Filters
  import opened MarketStats
  import opened AmountFormat
  import opened Onboarding
  import StrategyCorner

  /** The three tabs of the header. */
  datatype Tab = Stocks | FnO | Ipo

  /** What the page renders: the onboarding wizard, or the dashboard on one tab. */
  datatype Screen = OnboardingScreen | DashboardScreen(tab: Tab)

  class Page {
    var onboarded: bool
    var investmentAmount: nat
    var holdingPeriod: string
    var activeTab: Tab
    var selectedStrategies: seq<Strategy>
    var search: string
    var signalFilter: SignalChoice
    var sectorFilter: SectorChoice

    /** The strategy selection never lists a strategy twice. */
    ghost predicate Valid()
      reads this
    {
      NoDuplicates(selectedStrategies)
    }

    constructor ()
      ensures Valid()
      ensures !onboarded && investmentAmount == 100000 && holdingPeriod == "short"
      ensures activeTab == Stocks && selectedStrategies == AllStrategies
      ensures search == "" && signalFilter == AnySignal && sectorFilter == AnySector
    {
      onboarded := false;
      investmentAmount := 100000;
      holdingPeriod := "short";
      activeTab := Stocks;
      selectedStrategies := AllStrategies;
      search := "";
      signalFilter := AnySignal;
      sectorFilter := AnySector;
    }

    /** `handleOnboardingComplete`: store the profile and leave the wizard. */
    method HandleOnboardingComplete(data: Completion)
      requires Valid()
      modifies this
      ensures Valid()
      ensures onboarded && investmentAmount == data.amount && holdingPeriod == data.holding
      ensures activeTab == old(activeTab) && selectedStrategies == old(selectedStrategies)
      ensures search == old(search) && signalFilter == old(signalFilter) && sectorFilter == old(sectorFilter)
    {
      investmentAmount := data.amount;
      holdingPeriod := data.holding;
      onboarded := true;
    }

    /**
      The wizard's "Start Scanning Stocks" wired to the handler: a finished
      wizard leaves the page with the capital the user typed, read back from
      the amount field (at least ₹1,000), and the holding period chosen, one
      of those offered.
    */
    method FinishOnboarding(w: Onboarding.Wizard)
      requires Valid() && w.Valid() && w.step == 3
      modifies this
      ensures Valid()
      ensures onboarded && investmentAmount >= 1000 && IsHoldingValue(holdingPeriod)
      ensures ParsedAmount(w.amount) == Some(investmentAmount) && holdingPeriod == w.holding
      ensures activeTab == old(activeTab) && selectedStrategies == old(selectedStrategies)
      ensures search == old(search) && signalFilter == old(signalFilter) && sectorFilter == old(sectorFilter)
    {
      var payload := w.Start();
      HandleOnboardingComplete(payload.value);
    }

    /** `toggleStrategy`: deselect a selected strategy, or append an unselected one. */
    method ToggleStrategy(s: Strategy)
      requires Valid()
      modifies this
      ensures Valid()
      ensures selectedStrategies == Toggle(old(selectedStrategies), s)
      ensures onboarded == old(onboarded) && investmentAmount == old(investmentAmount) && holdingPeriod == old(holdingPeriod)
      ensures activeTab == old(activeTab) && search == old(search)
      ensures signalFilter == old(signalFilter) && sectorFilter == old(sectorFilter)
    {
      ToggleKeepsNoDuplicates(selectedStrategies, s);
      selectedStrategies := Toggle(selectedStrategies, s);
    }

    /** The search box's `onChange`. */
    method SetSearch(q: string)
      requires Valid()
      modifies this
      ensures Valid()
      ensures search == q
      ensures onboarded == old(onboarded) && investmentAmount == old(investmentAmount) && holdingPeriod == old(holdingPeriod)
      ensures activeTab == old(activeTab) && selectedStrategies == old(selectedStrategies)
      ensures signalFilter == old(signalFilter) && sectorFilter == old(sectorFilter)
    {
      search := q;
    }

    /** The signal filter's `onChange`. */
    method SetSignalFilter(f: SignalChoice)
      requires Valid()
      modifies this
      ensures Valid()
      ensures signalFilter == f
      ensures onboarded == old(onboarded) && investmentAmount == old(investmentAmount) && holdingPeriod == old(holdingPeriod)
      ensures activeTab == old(activeTab) && selectedStrategies == old(selectedStrategies)
      ensures search == old(search) && sectorFilter == old(sectorFilter)
    {
      signalFilter := f;
    }

    /** The sector filter's `onChange`. */
    method SetSectorFilter(f: SectorChoice)
      requires Valid()
      modifies this
      ensures Valid()
      ensures sectorFilter == f
      ensures onboarded == old(onboarded) && investmentAmount == old(investmentAmount) && holdingPeriod == old(holdingPeriod)
      ensures activeTab == old(activeTab) && selectedStrategies == old(selectedStrategies)
      ensures search == old(search) && signalFilter == old(signalFilter)
    {
      sectorFilter := f;
    }

    /** The header's `onTabChange`. */
    method SetActiveTab(t: Tab)
      requires Valid()
      modifies this
      ensures Valid()
      ensures activeTab == t
      ensures onboarded == old(onboarded) && investmentAmount == old(investmentAmount) && holdingPeriod == old(holdingPeriod)
      ensures selectedStrategies == old(selectedStrategies) && search == old(search)
      ensures signalFilter == old(signalFilter) && sectorFilter == old(sectorFilter)
    {
      activeTab := t;
    }

    /** What is rendered: the wizard until onboarding completes, then the active tab. */
    function CurrentScreen(): (r: Screen)
      reads this
      ensures r == OnboardingScreen <==> !onboarded
      ensures r.DashboardScreen? ==> r.tab == activeTab
    {
      if !onboarded then OnboardingScreen else DashboardScreen(activeTab)
    }

    /** `filteredStocks` over the fixture alerts. */
    function FilteredStocks(): (r: seq<StockAlert>)
      reads this
      ensures IsSubsequence(r, MockAlerts)
      ensures forall a :: a in r <==> (a in MockAlerts && a.strategy in selectedStrategies &&
        SignalAdmits(signalFilter, a.signal) && SectorAdmits(sectorFilter, a.sector) && SearchAdmits(search, [a.symbol, a.name]))
    {
      StocksView(MockAlerts, selectedStrategies, signalFilter, sectorFilter, search);
      FilterStocks(MockAlerts, selectedStrategies, signalFilter, sectorFilter, search)
    }

    /** `filteredFnO` over the fixture contracts. */
    function FilteredFnO(): (r: seq<FnOContract>)
      reads this
      ensures IsSubsequence(r, MockFnO)
      ensures forall c :: c in r <==> (c in MockFnO && SignalAdmits(signalFilter, c.signal) && SearchAdmits(search, [c.symbol]))
    {
      FnOView(MockFnO, signalFilter, search);
      FilterFnO(MockFnO, signalFilter, search)
    }

    /** `filteredIPOs` over the fixture listings. */
    function FilteredIPOs(): (r: seq<IPOListing>)
      reads this
      ensures IsSubsequence(r, MockIPOs)
      ensures forall ipo :: ipo in r <==> (ipo in MockIPOs && SearchAdmits(search, [ipo.company, ipo.symbol]))
    {
      IposView(MockIPOs, search);
      FilterIPOs(MockIPOs, search)
    }

    /** "No alerts match your filters." */
    predicate ShowsNoMatch()
      reads this
    {
      FilteredStocks() == []
    }

    /** The statistics row of the stocks tab, over the shown alerts. */
    function Stats(): (r: Summary)
      reads this
      ensures r.buyCount + r.sellCount + r.holdCount == |FilteredStocks()|
      ensures r.avgConfidence.NotANumber? <==> ShowsNoMatch()
    {
      CountsPartition(FilteredStocks());
      Summarize(FilteredStocks())
    }

    /** The strategy corner's transaction cost for the stored capital. */
    function CornerCost(): (r: real)
      reads this
      ensures r == StrategyCorner.TransactionCost(investmentAmount as real)
      ensures 0.0 <= r <= investmentAmount as real
    {
      StrategyCorner.TransactionCost(investmentAmount as real)
    }
  }

  /** The stocks view for any collection: an order-preserving selection of exactly the admitted alerts. */
  lemma StocksView(alerts: seq<StockAlert>, selected: seq<Strategy>, signalFilter: SignalChoice,
                   sectorFilter: SectorChoice, search: string)
    ensures var r := FilterStocks(alerts, selected, signalFilter, sectorFilter, search);
      IsSubsequence(r, alerts) &&
      forall a :: a in r <==> (a in alerts && a.strategy in selected &&
        SignalAdmits(signalFilter, a.signal) && SectorAdmits(sectorFilter, a.sector) && SearchAdmits(search, [a.symbol, a.name]))
  {
    var r := FilterStocks(alerts, selected, signalFilter, sectorFilter, search);
    forall a ensures a in r <==> (a in alerts && a.strategy in selected &&
      SignalAdmits(signalFilter, a.signal) && SectorAdmits(sectorFilter, a.sector) && SearchAdmits(search, [a.symbol, a.name]))
    {
      FilterStocksSpec(alerts, selected, signalFilter, sectorFilter, search, a);
    }
    FilterIsSubsequence(alerts, a => KeepStock(a, selected, signalFilter, sectorFilter, search));
  }

  /** The contracts view for any collection. */
  lemma FnOView(contracts: seq<FnOContract>, signalFilter: SignalChoice, search: string)
    ensures var r := FilterFnO(contracts, signalFilter, search);
      IsSubsequence(r, contracts) &&
      forall c :: c in r <==> (c in contracts && SignalAdmits(signalFilter, c.signal) && SearchAdmits(search, [c.symbol]))
  {
    forall c ensures c in FilterFnO(contracts, signalFilter, search) <==>
      (c in contracts && SignalAdmits(signalFilter, c.signal) && SearchAdmits(search, [c.symbol]))
    {
      FilterFnOSpec(contracts, signalFilter, search, c);
    }
    FilterIsSubsequence(contracts, c => KeepContract(c, signalFilter, search));
  }

  /** The IPO view for any collection. */
  lemma IposView(ipos: seq<IPOListing>, search: string)
    ensures var r := FilterIPOs(ipos, search);
      IsSubsequence(r, ipos) && forall ipo :: ipo in r <==> (ipo in ipos && SearchAdmits(search, [ipo.company, ipo.symbol]))
  {
    forall ipo ensures ipo in FilterIPOs(ipos, search) <==> (ipo in ipos && SearchAdmits(search, [ipo.company, ipo.symbol])) {
      FilterIPOsSpec(ipos, search, ipo);
    }
    FilterIsSubsequence(ipos, ipo => KeepIpo(ipo, search));
  }

  /** The initial filter state shows every fixture alert, and the statistics read 7, 4, 1 and 85%. */
  lemma InitialViewShowsEverything()
    ensures FilterStocks(MockAlerts, AllStrategies, AnySignal, AnySector, "") == MockAlerts
    ensures Summarize(FilterStocks(MockAlerts, AllStrategies, AnySignal, AnySector, "")) == Summary(7, 4, 1, Rounded(85))
  {
    InitialFilterKeepsAll(MockAlerts);
    FixtureSummary();
  }

  /** Choosing one signal in the initial state shows as many alerts as carry it, and only those. */
  lemma SignalFilterCount(alerts: seq<StockAlert>, s: Signal)
    ensures |FilterStocks(alerts, AllStrategies, OnlySignal(s), AnySector, "")| == CountSignal(alerts, s)
    ensures forall a :: a in FilterStocks(alerts, AllStrategies, OnlySignal(s), AnySector, "") ==> a.signal == s
    ensures var shown := FilterStocks(alerts, AllStrategies, OnlySignal(s), AnySector, "");
      CountSignal(shown, s) == |shown| && forall t :: t != s ==> CountSignal(shown, t) == 0
  {
    var shown := FilterStocks(alerts, AllStrategies, OnlySignal(s), AnySector, "");
    SignalFilterAlone(alerts, s);
    forall a | a in Filter(alerts, (a: StockAlert) => a.signal == s) ensures a.signal == s {
      FilterMembership(alerts, (a: StockAlert) => a.signal == s, a);
    }
    assert forall i :: 0 <= i < |shown| ==> shown[i] in shown;
    UniformSignalCounts(shown, s);
  }

  /**
    Choosing BUY alone in the initial state shows seven alerts, all of them
    buys, and the statistics row counts seven buys, no sells and no holds.
  */
  lemma BuyFilterShowsSeven()
    ensures |FilterStocks(MockAlerts, AllStrategies, OnlySignal(Buy), AnySector, "")| == 7
    ensures forall a :: a in FilterStocks(MockAlerts, AllStrategies, OnlySignal(Buy), AnySector, "") ==> a.signal == Buy
    ensures var stats := Summarize(FilterStocks(MockAlerts, AllStrategies, OnlySignal(Buy), AnySector, ""));
      stats.buyCount == 7 && stats.sellCount == 0 && stats.holdCount == 0
  {
    SignalFilterCount(MockAlerts, Buy);
    FixtureCounts();
  }

  /** Deselecting a strategy hides every alert credited to it, whatever the other filters say. */
  lemma DeselectedStrategyHidden(alerts: seq<StockAlert>, selected: seq<Strategy>, s: Strategy,
                                 signalFilter: SignalChoice, sectorFilter: SectorChoice, search: string)
    requires s in selected
    ensures forall a :: a in FilterStocks(alerts, Toggle(selected, s), signalFilter, sectorFilter, search) ==> a.strategy != s
  {
    forall a | a in FilterStocks(alerts, Toggle(selected, s), signalFilter, sectorFilter, search)
      ensures a.strategy != s
    {
      FilterStocksSpec(alerts, Toggle(selected, s), signalFilter, sectorFilter, search, a);
      ToggleFlips(selected, s, s);
    }
  }

  /** Toggling a strategy twice shows the same alerts as before. */
  lemma ToggleTwiceSameView(alerts: seq<StockAlert>, selected: seq<Strategy>, s: Strategy,
                            signalFilter: SignalChoice, sectorFilter: SectorChoice, search: string)
    ensures FilterStocks(alerts, Toggle(Toggle(selected, s), s), signalFilter, sectorFilter, search)
         == FilterStocks(alerts, selected, signalFilter, sectorFilter, search)
  {
    var twice := Toggle(Toggle(selected, s), s);
    forall i | 0 <= i < |alerts|
      ensures KeepStock(alerts[i], twice, signalFilter, sectorFilter, search) == KeepStock(alerts[i], selected, signalFilter, sectorFilter, search)
    {
      var t := alerts[i].strategy;
      ToggleFlips(Toggle(selected, s), s, t);
      ToggleFlips(selected, s, t);
    }
    FilterCongruent(alerts, a => KeepStock(a, twice, signalFilter, sectorFilter, search),
                    a => KeepStock(a, selected, signalFilter, sectorFilter, search));
  }
}
