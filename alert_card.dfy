/**
  What one stock alert card shows: the signal badge, the strategy tag, which
  optional parts appear, the signs printed in front of numbers, and the
  colours of the analysis tiles.
*/
module AlertCard {
  import opened Wrappers
  import opened StockData
  import opened Text
  import opened Zones
  import opened FixtureFacts

  /** One entry of `signalConfig` (the icon is not modelled). */
  datatype BadgeConfig = BadgeConfig(cssClass: string, caption: string)

  /** `signalConfig[alert.signal]`. */
  function SignalConfig(s: Signal): (r: BadgeConfig)
    ensures r.caption == s.Name()
  {
    match s
    case Buy => BadgeConfig("signal-buy glow-buy", "BUY")
    case Sell => BadgeConfig("signal-sell glow-sell", "SELL")
    case Hold => BadgeConfig("signal-hold glow-hold", "HOLD")
  }

  /** `strategyLabels[alert.strategy]`. */
  function StrategyLabel(s: Strategy): (r: string)
    ensures r == Strategies[s.Ordinal()].caption
  {
    match s
    case IqrZScore => "IQR Z-Score"
    case WeightedLinear => "Weighted Linear"
    case MlEnsemble => "ML Ensemble"
    case NeuralNet => "Neural Net"
    case Hybrid => "Hybrid Signal"
  }

  /** The "Qty to ..." panel is shown for every signal except HOLD. */
  predicate ShowsQuantity(a: StockAlert) {
    a.signal != Hold
  }

  /** The verb of the quantity panel: the signal's name in lower case. */
  function QuantityVerb(s: Signal): (r: string)
    ensures s == Buy ==> r == "buy"
    ensures s == Sell ==> r == "sell"
  {
    Lower(s.Name())
  }

  /** The expected-return badge is shown only for a positive expected return. */
  predicate ShowsExpectedReturn(a: StockAlert) {
    a.expectedReturn > 0.0
  }

  /** `isPositive`: the day's change is drawn green with a `+` when it is not negative. */
  function ChangePrefix(changePercent: real): (r: string)
    ensures r == "+" <==> changePercent >= 0.0
    ensures r == "" <==> changePercent < 0.0
  {
    if changePercent >= 0.0 then "+" else ""
  }

  /** The sign printed before the IQR z-score: `+` only for a strictly positive score. */
  function ZScorePrefix(z: real): (r: string)
    ensures r == "+" <==> z > 0.0
    ensures r == "" <==> z <= 0.0
  {
    if z > 0.0 then "+" else ""
  }

  /** The colour of the analysis tiles of an alert: IQR, neural net and ensemble. */
  datatype Tiles = Tiles(iqr: Option<Signal>, nn: Signal, mlHighlighted: bool)

  /**
    The tiles of a card: the IQR tile is buy-coloured below -2 and sell-coloured
    above 2; the NN tile is buy above the long threshold, sell below the short
    one (when not above the long one) and hold between; the ensemble tile is
    highlighted above 65%.
  */
  function CardTiles(a: StockAlert): (r: Tiles)
    ensures r.iqr == Some(Buy) <==> a.analysis.iqrZScore < -2.0
    ensures r.iqr == Some(Sell) <==> a.analysis.iqrZScore > 2.0
    ensures r.iqr == None <==> -2.0 <= a.analysis.iqrZScore <= 2.0
    ensures r.nn == Buy <==> a.analysis.nnProbability > a.analysis.longThreshold
    ensures r.nn == Sell <==> a.analysis.nnProbability <= a.analysis.longThreshold && a.analysis.nnProbability < a.analysis.shortThreshold
    ensures r.nn == Hold <==> a.analysis.shortThreshold <= a.analysis.nnProbability <= a.analysis.longThreshold
    ensures r.mlHighlighted <==> a.analysis.mlConfidence > 0.65
  {
    var x := a.analysis;
    Tiles(IqrTone(x.iqrZScore), NnTone(x.nnProbability, x.longThreshold, x.shortThreshold), MlHighlighted(x.mlConfidence))
  }

  /** A zero change is printed with a `+`, a zero z-score without one. */
  lemma ZeroSignsDiffer()
    ensures ChangePrefix(0.0) == "+" && ZScorePrefix(0.0) == ""
  {
  }

  /** The badge's style classes are named after the signal, in lower case. */
  lemma BadgeClassNamesSignal(s: Signal)
    ensures SignalConfig(s).cssClass == "signal-" + Lower(s.Name()) + " glow-" + Lower(s.Name())
  {
  }

  /** The strategy tag repeats the caption of the strategy's own entry in the strategy table. */
  lemma TagAgreesWithTable(t: Strategy)
    ensures exists i :: 0 <= i < |Strategies| && Strategies[i].value == t && Strategies[i].caption == StrategyLabel(t)
  {
    StrategyTableComplete();
    assert Strategies[t.Ordinal()].value == t;
  }

  /** When an alert's probability agrees with its signal, the neural-net tile shows that signal. */
  lemma NnTileShowsSignal(a: StockAlert)
    requires ThresholdsAgreeWithSignal(a)
    ensures CardTiles(a).nn == a.signal
  {
  }

  /** On every fixture card the neural-net tile has the colour of the card's signal. */
  lemma FixtureNnTilesMatchSignals()
    ensures forall a :: a in MockAlerts ==> CardTiles(a).nn == a.signal
  {
    AlertThresholdsAgree();
    forall a | a in MockAlerts
      ensures CardTiles(a).nn == a.signal
    {
      NnTileShowsSignal(a);
    }
  }

  /** On every fixture card the IQR tile is neutral or agrees with the signal. */
  lemma FixtureIqrTilesNeverContradict()
    ensures forall a :: a in MockAlerts ==> CardTiles(a).iqr == None || CardTiles(a).iqr == Some(a.signal)
  {
  }

  /** On every fixture card the ensemble tile is highlighted exactly when the signal is not HOLD. */
  lemma FixtureMlTilesMatchSignals()
    ensures forall a :: a in MockAlerts ==> (CardTiles(a).mlHighlighted <==> a.signal != Hold)
  {
  }

  /** On every fixture card the quantity panel and the return badge appear together. */
  lemma FixtureQuantityIffReturn()
    ensures forall a :: a in MockAlerts ==> (ShowsQuantity(a) <==> ShowsExpectedReturn(a))
  {
    AlertsSizedBySignal();
  }
}
