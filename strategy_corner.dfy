/**
  The strategy corner at the top of the dashboard: fixed model readings, the
  combined ("hybrid") signal derived from the IQR z-score and the neural-net
  probability, and the transaction cost of the investor's capital.
*/
module StrategyCorner {
  import opened Wrappers
  import opened StockData
  import opened Zones

  /** The readings the corner shows; they are constants of the component. */
  const CornerReadings: StrategyAnalysis := Analysis(-1.8, 0.72, 0.87, 0.78, 0.56, 0.45, 10.46, 4.29, -2.97, 34.6)

  /** The hybrid rule's z-score cut-off, looser than the IQR tile's ±2. */
  const HybridZ: real := 1.5

  /**
    `overallSignal`: BUY when the network is long and the z-score below -1.5,
    else SELL when the network is short and the z-score above 1.5, else HOLD.
  */
  function OverallSignal(x: StrategyAnalysis): (r: Signal)
    ensures r == Buy <==> x.nnProbability > x.longThreshold && x.iqrZScore < -HybridZ
    ensures r == Sell <==> x.nnProbability < x.shortThreshold && x.iqrZScore > HybridZ
    ensures r == Hold <==> !(x.nnProbability > x.longThreshold && x.iqrZScore < -HybridZ) && !(x.nnProbability < x.shortThreshold && x.iqrZScore > HybridZ)
  {
    if x.nnProbability > x.longThreshold && x.iqrZScore < -HybridZ then Buy
    else if x.nnProbability < x.shortThreshold && x.iqrZScore > HybridZ then Sell
    else Hold
  }

  /** Two basis points of the capital, the cost of one side of a trade. */
  function SideCost(amount: real): real {
    amount * 2.0 / 10000.0
  }

  /** `tCost`: the cost of a round trip, one buy and one sell at two basis points each. */
  function TransactionCost(amount: real): (r: real)
    ensures r == 2.0 * SideCost(amount)
    ensures amount >= 0.0 ==> 0.0 <= r <= amount
  {
    amount * 0.0004
  }

  /** A larger capital never costs less. */
  lemma CostMonotone(a: real, b: real)
    requires a <= b
    ensures TransactionCost(a) <= TransactionCost(b)
  {
  }

  /** The default capital of ₹1,00,000 costs ₹40. */
  lemma DefaultCapitalCost()
    ensures TransactionCost(100000.0) == 40.0
  {
  }

  /** The tiles of the corner as shown: a neutral IQR tile, a buying network, a highlighted ensemble, and BUY. */
  lemma CornerShowsBuy()
    ensures IqrTone(CornerReadings.iqrZScore) == None
    ensures NnTone(CornerReadings.nnProbability, CornerReadings.longThreshold, CornerReadings.shortThreshold) == Buy
    ensures MlHighlighted(CornerReadings.mlConfidence)
    ensures OverallSignal(CornerReadings) == Buy
  {
  }

  /** The hybrid signal never contradicts the neural-net tile when the thresholds are ordered. */
  lemma HybridAgreesWithNetwork(x: StrategyAnalysis)
    requires x.shortThreshold <= x.longThreshold
    ensures OverallSignal(x) != Hold ==> OverallSignal(x) == NnTone(x.nnProbability, x.longThreshold, x.shortThreshold)
  {
  }

  /** The hybrid signal never contradicts the IQR tile: an IQR buy cannot be a hybrid sell, nor the reverse. */
  lemma HybridNeverOpposesIqr(x: StrategyAnalysis)
    ensures IqrTone(x.iqrZScore) == Some(Buy) ==> OverallSignal(x) != Sell
    ensures IqrTone(x.iqrZScore) == Some(Sell) ==> OverallSignal(x) != Buy
  {
  }

  /**
    A z-score between -1.5 and 1.5 holds whatever the network says, while the
    IQR tile alone stays neutral on the wider band up to ±2.
  */
  lemma HybridNeedsZScore(x: StrategyAnalysis)
    requires -HybridZ <= x.iqrZScore <= HybridZ
    ensures OverallSignal(x) == Hold && IqrTone(x.iqrZScore) == None
  {
  }

  /** The three alerts credited to the hybrid strategy carry the signal the hybrid rule gives. */
  lemma FixtureHybridAlertsFollowRule()
    ensures forall a :: a in MockAlerts && a.strategy == Hybrid ==> OverallSignal(a.analysis) == a.signal
  {
  }

  /**
    Applied to every fixture alert, the rule reproduces each signal except
    INFY's: its z-score of -1.5 is not below -1.5, so the rule holds where the
    alert says BUY.
  */
  lemma FixtureRuleMatchesAllButInfosys()
    ensures forall i :: 0 <= i < |MockAlerts| && i != 2 ==> OverallSignal(MockAlerts[i].analysis) == MockAlerts[i].signal
    ensures MockAlerts[2].symbol == "INFY" && MockAlerts[2].signal == Buy && OverallSignal(MockAlerts[2].analysis) == Hold
  {
  }
}
