/**
  Facts about the enumerations, the lookup tables and the fixture data: the
  internal consistency that whoever produced the fixtures asserts but that no
  code in the dashboard enforces.
*/
module FixtureFacts {
  import opened StockData
  import opened Collections

  /** The values listed by the strategy table, in table order. */
  function StrategyTableValues(): (r: seq<Strategy>)
    ensures |r| == |Strategies|
  {
    seq(|Strategies|, i requires 0 <= i < |Strategies| => Strategies[i].value)
  }

  /** The values listed by the sector table, in table order. */
  function SectorTableValues(): (r: seq<Sector>)
    ensures |r| == |Sectors|
  {
    seq(|Sectors|, i requires 0 <= i < |Sectors| => Sectors[i].value)
  }

  /** Signal is a closed enumeration of three values. */
  lemma SignalIsClosed(s: Signal)
    ensures s in AllSignals && |AllSignals| == 3 && NoDuplicates(AllSignals)
  {
  }

  /** Strategy is a closed enumeration of five values, listed in declaration order. */
  lemma StrategyIsClosed(s: Strategy)
    ensures |AllStrategies| == 5 && NoDuplicates(AllStrategies)
    ensures AllStrategies[s.Ordinal()] == s
  {
  }

  /** Sector is a closed enumeration of eight values, listed in declaration order. */
  lemma SectorIsClosed(s: Sector)
    ensures |AllSectors| == 8 && NoDuplicates(AllSectors)
    ensures AllSectors[s.Ordinal()] == s
  {
  }

  /** The strategy table lists every strategy exactly once, in the order of the type. */
  lemma StrategyTableComplete()
    ensures StrategyTableValues() == AllStrategies
    ensures forall i :: 0 <= i < |Strategies| ==> Strategies[i].value.Ordinal() == i
    ensures NoDuplicates(StrategyTableValues())
  {
  }

  /** The sector table lists every sector exactly once, in the order of the type. */
  lemma SectorTableComplete()
    ensures SectorTableValues() == AllSectors
    ensures forall i :: 0 <= i < |Sectors| ==> Sectors[i].value.Ordinal() == i
    ensures NoDuplicates(SectorTableValues())
  {
  }

  /** A recommendation to trade carries a positive size and return; a hold carries neither. */
  predicate SizedBySignal(a: StockAlert) {
    if a.signal == Hold then a.quantity == 0 && a.expectedReturn == 0.0
    else a.quantity > 0 && a.expectedReturn > 0.0
  }

  /** Target and stop-loss sit on the sides of the current price that the signal implies. */
  predicate PricesAgreeWithSignal(a: StockAlert) {
    match a.signal
    case Buy => a.targetPrice > a.currentPrice > a.stopLoss
    case Sell => a.targetPrice < a.currentPrice < a.stopLoss
    case Hold => a.targetPrice == a.currentPrice == a.stopLoss
  }

  /** The neural-net probability falls in the zone of the thresholds that the signal names. */
  predicate ThresholdsAgreeWithSignal(a: StockAlert) {
    var x := a.analysis;
    x.shortThreshold < x.longThreshold &&
    match a.signal
    case Buy => x.nnProbability > x.longThreshold
    case Sell => x.nnProbability < x.shortThreshold
    case Hold => x.shortThreshold <= x.nnProbability <= x.longThreshold
  }

  /** Quantity and expected return are zero exactly for the hold record. */
  lemma AlertsSizedBySignal()
    ensures forall a :: a in MockAlerts ==> SizedBySignal(a)
    ensures forall a :: a in MockAlerts ==> (a.quantity == 0 <==> a.signal == Hold)
  {
  }

  /** Every alert's prices are ordered as its signal implies. */
  lemma AlertPricesOrdered()
    ensures forall a :: a in MockAlerts ==> PricesAgreeWithSignal(a)
  {
  }

  /** Every alert's thresholds are ordered and its neural-net probability agrees with its signal. */
  lemma AlertThresholdsAgree()
    ensures forall a :: a in MockAlerts ==> ThresholdsAgreeWithSignal(a)
  {
  }

  /** The alert identifiers are pairwise distinct. */
  lemma AlertIdsDistinct()
    ensures forall i, j :: 0 <= i < j < |MockAlerts| ==> MockAlerts[i].id != MockAlerts[j].id
  {
  }

  /** Every future carries no strike price and no implied volatility. */
  lemma FuturesHaveNoStrike()
    ensures forall c :: c in MockFnO && c.kind == Future ==> c.strikePrice == 0.0 && c.iv == 0.0
  {
  }

  /** Only the one hold contract recommends zero lots. */
  lemma HoldContractHasNoLots()
    ensures forall i :: 0 <= i < |MockFnO| ==> (MockFnO[i].signal == Hold <==> i == 6)
    ensures forall c :: c in MockFnO ==> (c.lots == 0 <==> c.signal == Hold)
  {
  }
}
