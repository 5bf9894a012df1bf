/**
  The query layer of the dashboard page: the three order-preserving filters
  over the stock, contract and IPO collections, and the strategy-selection
  toggle. All are pure functions of the collection and the filter state.
*/
module Filters {
  import opened StockData
  import opened Text
  import opened Collections

  /** The signal filter: a signal, or "ALL". */
  datatype SignalChoice = AnySignal | OnlySignal(signal: Signal)

  /** The sector filter: a sector, or "ALL". */
  datatype SectorChoice = AnySector | OnlySector(sector: Sector)

  /** The per-record test of the stocks view, checked in the source's order. */
  predicate KeepStock(a: StockAlert, strategies: seq<Strategy>, signalFilter: SignalChoice,
                      sectorFilter: SectorChoice, search: string)
  {
    if a.strategy !in strategies then false
    else if signalFilter.OnlySignal? && a.signal != signalFilter.signal then false
    else if sectorFilter.OnlySector? && a.sector != sectorFilter.sector then false
    else if search != "" && !MatchesIgnoringCase(a.symbol, search) && !MatchesIgnoringCase(a.name, search) then false
    else true
  }

  /** `filteredStocks`. */
  function FilterStocks(alerts: seq<StockAlert>, strategies: seq<Strategy>, signalFilter: SignalChoice,
                        sectorFilter: SectorChoice, search: string): seq<StockAlert>
  {
    Filter(alerts, a => KeepStock(a, strategies, signalFilter, sectorFilter, search))
  }

  /** The per-record test of the F&O view: the signal, and the search against the symbol only. */
  predicate KeepContract(c: FnOContract, signalFilter: SignalChoice, search: string) {
    if signalFilter.OnlySignal? && c.signal != signalFilter.signal then false
    else if search != "" && !MatchesIgnoringCase(c.symbol, search) then false
    else true
  }

  /** `filteredFnO`. */
  function FilterFnO(contracts: seq<FnOContract>, signalFilter: SignalChoice, search: string): seq<FnOContract> {
    Filter(contracts, c => KeepContract(c, signalFilter, search))
  }

  /** The per-record test of the IPO view: the search against company or symbol. */
  predicate KeepIpo(ipo: IPOListing, search: string) {
    if search != "" && !MatchesIgnoringCase(ipo.company, search) && !MatchesIgnoringCase(ipo.symbol, search) then false
    else true
  }

  /** `filteredIPOs`. */
  function FilterIPOs(ipos: seq<IPOListing>, search: string): seq<IPOListing> {
    Filter(ipos, ipo => KeepIpo(ipo, search))
  }

  /** `toggleStrategy`: remove `s` if selected, otherwise append it. */
  function Toggle(selected: seq<Strategy>, s: Strategy): seq<Strategy> {
    if s in selected then Filter(selected, x => x != s) else selected + [s]
  }

  /** The signal filter admits a signal. */
  predicate SignalAdmits(f: SignalChoice, s: Signal) {
    f == AnySignal || f == OnlySignal(s)
  }

  /** The sector filter admits a sector. */
  predicate SectorAdmits(f: SectorChoice, s: Sector) {
    f == AnySector || f == OnlySector(s)
  }

  /** The search box admits a record with these fields. */
  predicate SearchAdmits(search: string, fields: seq<string>) {
    search == "" || exists i :: 0 <= i < |fields| && Includes(Lower(fields[i]), Lower(search))
  }

  /**
    The `search &&` guard in front of each test is only a shortcut: the empty
    string occurs in every field, so an empty search would admit every record
    even without it.
  */
  lemma SearchGuardRedundant(search: string, fields: seq<string>)
    requires fields != []
    ensures SearchAdmits(search, fields) <==> exists i :: 0 <= i < |fields| && MatchesIgnoringCase(fields[i], search)
  {
    if search == "" {
      IncludesEmpty(Lower(fields[0]));
      assert Lower(search) == [];
      assert MatchesIgnoringCase(fields[0], search);
    }
  }

  /**
    A stock is shown iff it is in the input and its strategy is selected, the
    signal and sector filters admit it and the search matches its symbol or name;
    the result is an order-preserving subsequence of the input with every kept
    record appearing as often as in the input, unaltered.
  */
  lemma FilterStocksSpec(alerts: seq<StockAlert>, strategies: seq<Strategy>, signalFilter: SignalChoice,
                         sectorFilter: SectorChoice, search: string, a: StockAlert)
    ensures a in FilterStocks(alerts, strategies, signalFilter, sectorFilter, search) <==>
      a in alerts && a.strategy in strategies && SignalAdmits(signalFilter, a.signal) &&
      SectorAdmits(sectorFilter, a.sector) && SearchAdmits(search, [a.symbol, a.name])
    ensures IsSubsequence(FilterStocks(alerts, strategies, signalFilter, sectorFilter, search), alerts)
    ensures multiset(FilterStocks(alerts, strategies, signalFilter, sectorFilter, search))[a] ==
      if a.strategy in strategies && SignalAdmits(signalFilter, a.signal) &&
         SectorAdmits(sectorFilter, a.sector) && SearchAdmits(search, [a.symbol, a.name])
      then multiset(alerts)[a] else 0
  {
    var p := a => KeepStock(a, strategies, signalFilter, sectorFilter, search);
    FilterMembership(alerts, p, a);
    FilterIsSubsequence(alerts, p);
    FilterMultiplicity(alerts, p, a);
    assert SearchAdmits(search, [a.symbol, a.name]) <==>
      search == "" || MatchesIgnoringCase(a.symbol, search) || MatchesIgnoringCase(a.name, search) by {
      var fields := [a.symbol, a.name];
      if MatchesIgnoringCase(a.symbol, search) { assert Includes(Lower(fields[0]), Lower(search)); }
      if MatchesIgnoringCase(a.name, search) { assert Includes(Lower(fields[1]), Lower(search)); }
    }
  }

  /** With the initial filter state every record is shown, in its original order. */
  lemma InitialFilterKeepsAll(alerts: seq<StockAlert>)
    ensures FilterStocks(alerts, AllStrategies, AnySignal, AnySector, "") == alerts
  {
    var p := a => KeepStock(a, AllStrategies, AnySignal, AnySector, "");
    forall i | 0 <= i < |alerts| ensures p(alerts[i]) {
      var s := alerts[i].strategy;
      assert AllStrategies[s.Ordinal()] == s;
    }
    FilterKeepsAll(alerts, p);
  }

  /** With every strategy selected and no sector or search, the signal filter alone decides. */
  lemma SignalFilterAlone(alerts: seq<StockAlert>, s: Signal)
    ensures FilterStocks(alerts, AllStrategies, OnlySignal(s), AnySector, "") == Filter(alerts, (a: StockAlert) => a.signal == s)
  {
    forall i | 0 <= i < |alerts|
      ensures KeepStock(alerts[i], AllStrategies, OnlySignal(s), AnySector, "") == (alerts[i].signal == s)
    {
      var t := alerts[i].strategy;
      assert AllStrategies[t.Ordinal()] == t;
    }
    FilterCongruent(alerts, a => KeepStock(a, AllStrategies, OnlySignal(s), AnySector, ""), (a: StockAlert) => a.signal == s);
  }

  /** With no strategy selected nothing is shown, whatever the other filters say. */
  lemma EmptySelectionShowsNothing(alerts: seq<StockAlert>, signalFilter: SignalChoice,
                                   sectorFilter: SectorChoice, search: string)
    ensures FilterStocks(alerts, [], signalFilter, sectorFilter, search) == []
  {
    FilterKeepsNone(alerts, a => KeepStock(a, [], signalFilter, sectorFilter, search));
  }

  /**
    A contract is shown iff the signal filter admits it and the search matches its
    symbol; the result is an order-preserving subsequence of the input in which
    every shown contract appears as often as in the input.
  */
  lemma FilterFnOSpec(contracts: seq<FnOContract>, signalFilter: SignalChoice, search: string, c: FnOContract)
    ensures c in FilterFnO(contracts, signalFilter, search) <==>
      c in contracts && SignalAdmits(signalFilter, c.signal) && SearchAdmits(search, [c.symbol])
    ensures IsSubsequence(FilterFnO(contracts, signalFilter, search), contracts)
    ensures multiset(FilterFnO(contracts, signalFilter, search))[c] ==
      if SignalAdmits(signalFilter, c.signal) && SearchAdmits(search, [c.symbol]) then multiset(contracts)[c] else 0
  {
    var p := c => KeepContract(c, signalFilter, search);
    FilterMembership(contracts, p, c);
    FilterIsSubsequence(contracts, p);
    FilterMultiplicity(contracts, p, c);
    assert SearchAdmits(search, [c.symbol]) <==> search == "" || MatchesIgnoringCase(c.symbol, search) by {
      if MatchesIgnoringCase(c.symbol, search) { assert Includes(Lower([c.symbol][0]), Lower(search)); }
    }
  }

  /** The contract search never looks at the display name. */
  lemma ContractNameIgnored(c: FnOContract, signalFilter: SignalChoice, search: string, otherName: string)
    ensures KeepContract(c.(name := otherName), signalFilter, search) == KeepContract(c, signalFilter, search)
  {
  }

  /**
    An IPO is shown iff the search matches its company or symbol; the signal and
    sector filters play no part. The result is an order-preserving subsequence
    in which every shown listing appears as often as in the input.
  */
  lemma FilterIPOsSpec(ipos: seq<IPOListing>, search: string, ipo: IPOListing)
    ensures ipo in FilterIPOs(ipos, search) <==> ipo in ipos && SearchAdmits(search, [ipo.company, ipo.symbol])
    ensures IsSubsequence(FilterIPOs(ipos, search), ipos)
    ensures multiset(FilterIPOs(ipos, search))[ipo] ==
      if SearchAdmits(search, [ipo.company, ipo.symbol]) then multiset(ipos)[ipo] else 0
  {
    var p := ipo => KeepIpo(ipo, search);
    FilterMembership(ipos, p, ipo);
    FilterIsSubsequence(ipos, p);
    FilterMultiplicity(ipos, p, ipo);
    assert SearchAdmits(search, [ipo.company, ipo.symbol]) <==>
      search == "" || MatchesIgnoringCase(ipo.company, search) || MatchesIgnoringCase(ipo.symbol, search) by {
      var fields := [ipo.company, ipo.symbol];
      if MatchesIgnoringCase(ipo.company, search) { assert Includes(Lower(fields[0]), Lower(search)); }
      if MatchesIgnoringCase(ipo.symbol, search) { assert Includes(Lower(fields[1]), Lower(search)); }
    }
  }

  /** Toggling flips the membership of the toggled strategy and of no other. */
  lemma ToggleFlips(selected: seq<Strategy>, s: Strategy, t: Strategy)
    ensures t in Toggle(selected, s) <==> (if t == s then s !in selected else t in selected)
  {
    if s in selected {
      FilterMembership(selected, x => x != s, t);
    }
  }

  /** Toggling keeps the selection free of duplicates. */
  lemma ToggleKeepsNoDuplicates(selected: seq<Strategy>, s: Strategy)
    requires NoDuplicates(selected)
    ensures NoDuplicates(Toggle(selected, s))
  {
    if s in selected {
      FilterKeepsNoDuplicates(selected, x => x != s);
    }
  }

  /** Toggling the same strategy twice restores the set of selected strategies. */
  lemma ToggleTwiceRestoresSet(selected: seq<Strategy>, s: Strategy)
    ensures (set t | t in Toggle(Toggle(selected, s), s)) == (set t | t in selected)
  {
    forall t ensures t in Toggle(Toggle(selected, s), s) <==> t in selected {
      ToggleFlips(selected, s, t);
      ToggleFlips(Toggle(selected, s), s, t);
      ToggleFlips(selected, s, s);
    }
  }
}
