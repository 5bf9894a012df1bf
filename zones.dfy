/**
  The colour rules that both the alert card and the strategy corner apply to
  the quantitative readings: an IQR z-score beyond ±2 is a mean-reversion
  call, a neural-net probability above the long threshold or below the short
  threshold is a directional call, and an ensemble confidence above 65% passes
  the confidence filter.
*/
module Zones {
  import opened Wrappers
  import opened StockData

  /** The IQR z-score tile: `Some(Buy)` below -2, `Some(Sell)` above 2, `None` (neutral) between. */
  function IqrTone(z: real): (r: Option<Signal>)
    ensures r == Some(Buy) <==> z < -2.0
    ensures r == Some(Sell) <==> z > 2.0
    ensures r == None <==> -2.0 <= z <= 2.0
    ensures r != Some(Hold)
  {
    if z < -2.0 then Some(Buy) else if z > 2.0 then Some(Sell) else None
  }

  /** The neural-net tile: the long threshold is tested first, then the short one. */
  function NnTone(p: real, longThreshold: real, shortThreshold: real): (r: Signal)
    ensures r == Buy <==> p > longThreshold
    ensures r == Sell <==> p <= longThreshold && p < shortThreshold
    ensures r == Hold <==> shortThreshold <= p <= longThreshold
  {
    if p > longThreshold then Buy else if p < shortThreshold then Sell else Hold
  }

  /** The minimum ensemble confidence, 65%. */
  const MlConfidenceFilter: real := 0.65

  /** The ensemble tile is highlighted when the confidence passes the filter. */
  predicate MlHighlighted(confidence: real) {
    confidence > MlConfidenceFilter
  }

  /**
    With the short threshold at or below the long one, the two thresholds cut
    the probabilities into three zones and the order of the tests no longer matters.
  */
  lemma NnZonesPartition(p: real, longThreshold: real, shortThreshold: real)
    requires shortThreshold <= longThreshold
    ensures NnTone(p, longThreshold, shortThreshold) == Sell <==> p < shortThreshold
  {
  }

  /**
    With the thresholds the wrong way round, a probability between them is
    shown as a buy although it is also below the short threshold.
  */
  lemma NnInvertedThresholdsPreferBuy(p: real, longThreshold: real, shortThreshold: real)
    requires longThreshold < p < shortThreshold
    ensures NnTone(p, longThreshold, shortThreshold) == Buy
  {
  }
}
