/**
  The summary row above the stock list: how many of the shown alerts carry each
  signal, and their mean confidence rounded as `Math.round` does.
*/
module MarketStats {
  import opened StockData
  import opened Collections

  /** A number that may be `NaN`, as the mean of no values is in the source. */
  datatype Average = NotANumber | Rounded(value: int)

  datatype Summary = Summary(buyCount: nat, sellCount: nat, holdCount: nat, avgConfidence: Average)

  /** `alerts.filter(a => a.signal === s).length`. */
  function CountSignal(alerts: seq<StockAlert>, s: Signal): nat {
    |Filter(alerts, (a: StockAlert) => a.signal == s)|
  }

  /** `alerts.reduce((a, b) => a + b.confidence, 0)`. */
  function SumConfidence(alerts: seq<StockAlert>): int {
    if alerts == [] then 0 else SumConfidence(alerts[..|alerts| - 1]) + alerts[|alerts| - 1].confidence
  }

  /** `Math.round`: the nearest integer, halves rounded up. */
  function RoundHalfUp(x: real): (r: int)
    ensures r as real - 0.5 <= x < r as real + 0.5
  {
    (x + 0.5).Floor
  }

  /** `Math.round(sum / alerts.length)`; dividing by an empty list gives `NaN`. */
  function AvgConfidence(alerts: seq<StockAlert>): (r: Average)
    ensures r.NotANumber? <==> alerts == []
  {
    if alerts == [] then NotANumber
    else Rounded(RoundHalfUp(SumConfidence(alerts) as real / |alerts| as real))
  }

  /** The four statistics shown. */
  function Summarize(alerts: seq<StockAlert>): Summary {
    Summary(CountSignal(alerts, Buy), CountSignal(alerts, Sell), CountSignal(alerts, Hold), AvgConfidence(alerts))
  }

  /** The indices of the alerts carrying signal `s`. */
  ghost function IndicesWithSignal(alerts: seq<StockAlert>, s: Signal): set<nat> {
    set i: nat | i < |alerts| && alerts[i].signal == s
  }

  /** Each count is the number of positions holding an alert with that signal. */
  lemma CountIsNumberOfCarriers(alerts: seq<StockAlert>, s: Signal)
    ensures CountSignal(alerts, s) == |IndicesWithSignal(alerts, s)|
  {
    var p := (a: StockAlert) => a.signal == s;
    FilterLengthCountsIndices(alerts, p);
    assert IndicesWhere(alerts, p) == IndicesWithSignal(alerts, s);
  }

  /** The three counts partition the alerts: they add up to the number of alerts. */
  lemma {:induction false} CountsPartition(alerts: seq<StockAlert>)
    ensures CountSignal(alerts, Buy) + CountSignal(alerts, Sell) + CountSignal(alerts, Hold) == |alerts|
  {
    if alerts != [] {
      CountsPartition(alerts[1..]);
    }
  }

  /** When every alert carries one signal, the other two counts are zero. */
  lemma UniformSignalCounts(alerts: seq<StockAlert>, s: Signal)
    requires forall i :: 0 <= i < |alerts| ==> alerts[i].signal == s
    ensures CountSignal(alerts, s) == |alerts|
    ensures forall t :: t != s ==> CountSignal(alerts, t) == 0
  {
    FilterKeepsAll(alerts, (a: StockAlert) => a.signal == s);
    forall t | t != s ensures CountSignal(alerts, t) == 0 {
      FilterKeepsNone(alerts, (a: StockAlert) => a.signal == t);
    }
  }

  /** For integer sums, `Math.round(sum / n)` is `(2 * sum + n) div (2 * n)`. */
  lemma AverageIntegerForm(alerts: seq<StockAlert>)
    requires alerts != []
    ensures AvgConfidence(alerts) == Rounded((2 * SumConfidence(alerts) + |alerts|) / (2 * |alerts|))
  {
    var sum, n := SumConfidence(alerts), |alerts|;
    var q := (2 * sum + n) / (2 * n);
    var r := RoundHalfUp(sum as real / n as real);
    RoundedMeanWindow(sum, n, r);
    FloorUnique(2 * sum + n, 2 * n, r, q);
  }

  /** Rounding `sum / n` half up to `r` puts `2 * sum + n` in the window `[2nr, 2nr + 2n)`. */
  lemma RoundedMeanWindow(sum: int, n: int, r: int)
    requires n > 0
    requires r as real - 0.5 <= sum as real / n as real < r as real + 0.5
    ensures 2 * n * r <= 2 * sum + n < 2 * n * r + 2 * n
  {
    var x, c := sum as real / n as real, 2.0 * n as real;
    assert x * c == 2.0 * sum as real;
    RealMulMono(r as real - 0.5, x, c);
    RealMulStrict(x, r as real + 0.5, c);
    assert (r as real - 0.5) * c == (2 * n * r - n) as real;
    assert (r as real + 0.5) * c == (2 * n * r + n) as real;
  }

  lemma RealMulMono(a: real, b: real, c: real)
    requires a <= b && c > 0.0
    ensures a * c <= b * c
  {
  }

  lemma RealMulStrict(a: real, b: real, c: real)
    requires a < b && c > 0.0
    ensures a * c < b * c
  {
  }

  /** Floor division has one answer: two quotients of the same window coincide. */
  lemma FloorUnique(a: int, d: int, q1: int, q2: int)
    requires d > 0
    requires d * q1 <= a < d * q1 + d
    requires d * q2 <= a < d * q2 + d
    ensures q1 == q2
  {
    if q1 < q2 {
      MulMono(d, q1 + 1, q2);
    } else if q2 < q1 {
      MulMono(d, q2 + 1, q1);
    }
  }

  lemma MulMono(d: int, a: int, b: int)
    requires d > 0 && a <= b
    ensures d * a <= d * b
  {
  }

  /** The smallest confidence among the alerts. */
  function MinConfidence(alerts: seq<StockAlert>): (m: int)
    requires alerts != []
    ensures forall i :: 0 <= i < |alerts| ==> m <= alerts[i].confidence
    ensures exists i :: 0 <= i < |alerts| && m == alerts[i].confidence
  {
    if |alerts| == 1 then alerts[0].confidence
    else
      var m := MinConfidence(alerts[1..]);
      if alerts[0].confidence < m then alerts[0].confidence else m
  }

  /** The largest confidence among the alerts. */
  function MaxConfidence(alerts: seq<StockAlert>): (m: int)
    requires alerts != []
    ensures forall i :: 0 <= i < |alerts| ==> alerts[i].confidence <= m
    ensures exists i :: 0 <= i < |alerts| && m == alerts[i].confidence
  {
    if |alerts| == 1 then alerts[0].confidence
    else
      var m := MaxConfidence(alerts[1..]);
      if alerts[0].confidence > m then alerts[0].confidence else m
  }

  /** A bound on every confidence bounds the sum by `n` times itself. */
  lemma {:induction false} SumBounded(alerts: seq<StockAlert>, lo: int, hi: int)
    requires forall i :: 0 <= i < |alerts| ==> lo <= alerts[i].confidence <= hi
    ensures |alerts| * lo <= SumConfidence(alerts) <= |alerts| * hi
  {
    if alerts != [] {
      var init := alerts[..|alerts| - 1];
      SumBounded(init, lo, hi);
      assert |alerts| * lo == |init| * lo + lo;
      assert |alerts| * hi == |init| * hi + hi;
    }
  }

  /** The rounded mean confidence lies between the least and the greatest confidence. */
  lemma AverageBetweenExtremes(alerts: seq<StockAlert>)
    requires alerts != []
    ensures MinConfidence(alerts) <= AvgConfidence(alerts).value <= MaxConfidence(alerts)
  {
    var lo, hi := MinConfidence(alerts), MaxConfidence(alerts);
    SumBounded(alerts, lo, hi);
    AverageIntegerForm(alerts);
    MeanBetween(SumConfidence(alerts), |alerts|, lo, hi);
  }

  /** The half-up rounded mean of values between `lo` and `hi` stays between them. */
  lemma MeanBetween(sum: int, n: int, lo: int, hi: int)
    requires n > 0
    requires n * lo <= sum <= n * hi
    ensures lo <= (2 * sum + n) / (2 * n) <= hi
  {
    var d := 2 * n;
    var q := (2 * sum + n) / d;
    DivWindow(2 * sum + n, d);
    assert d * (q + 1) == d * q + d;
    assert d * lo == 2 * (n * lo);
    assert d * (hi + 1) == 2 * (n * hi) + d;
    if q < lo {
      MulMono(d, q + 1, lo);
    }
    if q > hi {
      MulMono(d, hi + 1, q);
    }
  }

  lemma DivWindow(a: int, d: int)
    requires d > 0
    ensures d * (a / d) <= a < d * (a / d) + d
  {
  }

  /** The signals of the alerts, in order. */
  function SignalsOf(alerts: seq<StockAlert>): (r: seq<Signal>)
    ensures |r| == |alerts| && forall i :: 0 <= i < |r| ==> r[i] == alerts[i].signal
  {
    seq(|alerts|, i requires 0 <= i < |alerts| => alerts[i].signal)
  }

  /** The confidences of the alerts, in order. */
  function ConfidencesOf(alerts: seq<StockAlert>): (r: seq<int>)
    ensures |r| == |alerts| && forall i :: 0 <= i < |r| ==> r[i] == alerts[i].confidence
  {
    seq(|alerts|, i requires 0 <= i < |alerts| => alerts[i].confidence)
  }

  function Occurrences(ss: seq<Signal>, s: Signal): nat {
    if ss == [] then 0 else (if ss[0] == s then 1 else 0) + Occurrences(ss[1..], s)
  }

  function Total(xs: seq<int>): int {
    if xs == [] then 0 else Total(xs[..|xs| - 1]) + xs[|xs| - 1]
  }

  /** A count depends on the signals alone. */
  lemma {:induction false} CountFromSignals(alerts: seq<StockAlert>, s: Signal)
    ensures CountSignal(alerts, s) == Occurrences(SignalsOf(alerts), s)
  {
    if alerts != [] {
      CountFromSignals(alerts[1..], s);
      assert SignalsOf(alerts)[1..] == SignalsOf(alerts[1..]);
    }
  }

  /** The confidence sum depends on the confidences alone. */
  lemma {:induction false} SumFromConfidences(alerts: seq<StockAlert>)
    ensures SumConfidence(alerts) == Total(ConfidencesOf(alerts))
  {
    if alerts != [] {
      var init := alerts[..|alerts| - 1];
      SumFromConfidences(init);
      assert ConfidencesOf(alerts)[..|alerts| - 1] == ConfidencesOf(init);
    }
  }

  lemma FixtureSignals()
    ensures SignalsOf(MockAlerts) == [Buy, Sell, Buy, Hold, Buy, Sell, Buy, Sell, Buy, Sell, Buy, Buy]
  {
  }

  lemma FixtureConfidences()
    ensures ConfidencesOf(MockAlerts) == [92, 88, 86, 52, 95, 81, 90, 84, 87, 83, 93, 85]
  {
  }

  function Indicator(x: Signal, s: Signal): nat {
    if x == s then 1 else 0
  }

  lemma OccurrencesStep(ss: seq<Signal>, s: Signal, k: nat)
    requires k < |ss|
    ensures Occurrences(ss[k..], s) == Indicator(ss[k], s) + Occurrences(ss[k + 1..], s)
  {
    assert ss[k..][1..] == ss[k + 1..];
  }

  /** Six positions of occurrences from position `k` on, unfolded one by one. */
  lemma OccurrencesOfSix(ss: seq<Signal>, s: Signal, k: nat)
    requires k + 6 <= |ss|
    ensures Occurrences(ss[k..], s) == Indicator(ss[k], s) + Indicator(ss[k + 1], s) + Indicator(ss[k + 2], s) + Indicator(ss[k + 3], s) + Indicator(ss[k + 4], s) + Indicator(ss[k + 5], s) + Occurrences(ss[k + 6..], s)
  {
    OccurrencesStep(ss, s, k);
    OccurrencesStep(ss, s, k + 1);
    OccurrencesStep(ss, s, k + 2);
    OccurrencesStep(ss, s, k + 3);
    OccurrencesStep(ss, s, k + 4);
    OccurrencesStep(ss, s, k + 5);
  }

  /** Occurrences in a twelve-element sequence, position by position. */
  lemma OccurrencesOfTwelve(ss: seq<Signal>, s: Signal)
    requires |ss| == 12
    ensures Occurrences(ss, s) == Indicator(ss[0], s) + Indicator(ss[1], s) + Indicator(ss[2], s) + Indicator(ss[3], s) + Indicator(ss[4], s) + Indicator(ss[5], s) + Indicator(ss[6], s) + Indicator(ss[7], s) + Indicator(ss[8], s) + Indicator(ss[9], s) + Indicator(ss[10], s) + Indicator(ss[11], s)
  {
    assert ss[0..] == ss;
    assert ss[12..] == [];
    OccurrencesOfSix(ss, s, 0);
    OccurrencesOfSix(ss, s, 6);
  }

  lemma TotalStep(xs: seq<int>, k: nat)
    requires k < |xs|
    ensures Total(xs[..k + 1]) == Total(xs[..k]) + xs[k]
  {
    assert xs[..k + 1][..k] == xs[..k];
  }

  /** The total of a twelve-element sequence, position by position. */
  lemma TotalOfTwelve(xs: seq<int>)
    requires |xs| == 12
    ensures Total(xs) == xs[0] + xs[1] + xs[2] + xs[3] + xs[4] + xs[5] + xs[6] + xs[7] + xs[8] + xs[9] + xs[10] + xs[11]
  {
    assert xs[..12] == xs;
    assert xs[..0] == [];
    TotalStep(xs, 0);
    TotalStep(xs, 1);
    TotalStep(xs, 2);
    TotalStep(xs, 3);
    TotalStep(xs, 4);
    TotalStep(xs, 5);
    TotalStep(xs, 6);
    TotalStep(xs, 7);
    TotalStep(xs, 8);
    TotalStep(xs, 9);
    TotalStep(xs, 10);
    TotalStep(xs, 11);
  }

  lemma CountsOfSignalList(alerts: seq<StockAlert>)
    requires SignalsOf(alerts) == [Buy, Sell, Buy, Hold, Buy, Sell, Buy, Sell, Buy, Sell, Buy, Buy]
    ensures CountSignal(alerts, Buy) == 7
    ensures CountSignal(alerts, Sell) == 4
    ensures CountSignal(alerts, Hold) == 1
  {
    var ss := SignalsOf(alerts);
    CountFromSignals(alerts, Buy);
    CountFromSignals(alerts, Sell);
    CountFromSignals(alerts, Hold);
    OccurrencesOfTwelve(ss, Buy);
    OccurrencesOfTwelve(ss, Sell);
    OccurrencesOfTwelve(ss, Hold);
  }

  lemma SummaryOfConfidenceList(alerts: seq<StockAlert>)
    requires ConfidencesOf(alerts) == [92, 88, 86, 52, 95, 81, 90, 84, 87, 83, 93, 85]
    ensures AvgConfidence(alerts) == Rounded(85)
  {
    SumFromConfidences(alerts);
    TotalOfTwelve(ConfidencesOf(alerts));
    AverageIntegerForm(alerts);
  }

  /** The signal counts of the full fixture are 7, 4 and 1. */
  lemma FixtureCounts()
    ensures CountSignal(MockAlerts, Buy) == 7
    ensures CountSignal(MockAlerts, Sell) == 4
    ensures CountSignal(MockAlerts, Hold) == 1
  {
    FixtureSignals();
    CountsOfSignalList(MockAlerts);
  }

  /** On the full fixture the counts are 7, 4 and 1 and the mean confidence rounds to 85. */
  lemma FixtureSummary()
    ensures Summarize(MockAlerts) == Summary(7, 4, 1, Rounded(85))
  {
    FixtureCounts();
    FixtureConfidences();
    SummaryOfConfidenceList(MockAlerts);
  }
}
