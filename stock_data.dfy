/**
  The domain model of the dashboard: the closed enumerations, the three record
  shapes (stock alert, derivatives contract, IPO listing), the sector and
  strategy tables and the fixture collections that stand in for a data feed.
  Decimal fields (prices, ratios, probabilities) are exact reals.
*/
module StockData {

  /** A trading recommendation. */
  datatype Signal = Buy | Sell | Hold {
    /** The literal the source uses for this value. */
    function Name(): string {
      match this
      case Buy => "BUY"
      case Sell => "SELL"
      case Hold => "HOLD"
    }
  }

  /** The analytical model credited with an alert, in the order the type lists them. */
  datatype Strategy = IqrZScore | WeightedLinear | MlEnsemble | NeuralNet | Hybrid {
    function Name(): string {
      match this
      case IqrZScore => "IQR_ZSCORE"
      case WeightedLinear => "WEIGHTED_LINEAR"
      case MlEnsemble => "ML_ENSEMBLE"
      case NeuralNet => "NEURAL_NET"
      case Hybrid => "HYBRID"
    }

    /** Position of the value in the type's declaration. */
    function Ordinal(): nat {
      match this
      case IqrZScore => 0
      case WeightedLinear => 1
      case MlEnsemble => 2
      case NeuralNet => 3
      case Hybrid => 4
    }
  }

  /** Industry classification of an equity. */
  datatype Sector = IT | Banking | Auto | Pharma | Energy | Fmcg | Metals | Infra {
    function Name(): string {
      match this
      case IT => "IT"
      case Banking => "BANKING"
      case Auto => "AUTO"
      case Pharma => "PHARMA"
      case Energy => "ENERGY"
      case Fmcg => "FMCG"
      case Metals => "METALS"
      case Infra => "INFRA"
    }

    function Ordinal(): nat {
      match this
      case IT => 0
      case Banking => 1
      case Auto => 2
      case Pharma => 3
      case Energy => 4
      case Fmcg => 5
      case Metals => 6
      case Infra => 7
    }
  }

  datatype Exchange = NSE | BSE
  datatype ContractType = Call | Put | Future
  datatype IpoStatus = Upcoming | Open | Listed | Closed
  datatype IpoRating = Subscribe | Avoid | Neutral
  datatype IpoBoard = Mainboard | Sme

  /** The quantitative components behind an alert. */
  datatype StrategyAnalysis = StrategyAnalysis(
    iqrZScore: real,
    weightedSignal: real,
    mlConfidence: real,
    nnProbability: real,
    longThreshold: real,
    shortThreshold: real,
    calmarRatio: real,
    sharpeRatio: real,
    maxDrawdown: real,
    annualReturn: real)

  /** One trading recommendation for an equity. */
  datatype StockAlert = StockAlert(
    id: string,
    symbol: string,
    name: string,
    exchange: Exchange,
    currentPrice: real,
    targetPrice: real,
    stopLoss: real,
    signal: Signal,
    strategy: Strategy,
    quantity: int,
    confidence: int,
    change: real,
    changePercent: real,
    rsi: int,
    volume: string,
    timestamp: string,
    reason: string,
    sector: Sector,
    analysis: StrategyAnalysis,
    expectedReturn: real)

  /** A futures or options contract. */
  datatype FnOContract = FnOContract(
    id: string,
    symbol: string,
    name: string,
    kind: ContractType,
    expiry: string,
    strikePrice: real,
    ltp: real,
    change: real,
    changePercent: real,
    oi: string,
    oiChange: string,
    volume: string,
    iv: real,
    signal: Signal,
    lotSize: int,
    lots: int,
    confidence: int,
    reason: string)

  /** An initial public offering. */
  datatype IPOListing = IPOListing(
    id: string,
    company: string,
    symbol: string,
    priceRange: string,
    issueSize: string,
    lotSize: int,
    openDate: string,
    closeDate: string,
    listingDate: string,
    status: IpoStatus,
    gmp: int,
    subscription: string,
    rating: IpoRating,
    sector: string,
    board: IpoBoard)

  datatype SectorEntry = SectorEntry(value: Sector, caption: string)
  datatype StrategyEntry = StrategyEntry(value: Strategy, caption: string, description: string)

  /** The sector table behind the sector filter buttons. */
  const Sectors: seq<SectorEntry> := [
    SectorEntry(IT, "IT & Tech"),
    SectorEntry(Banking, "Banking & Finance"),
    SectorEntry(Auto, "Automobile"),
    SectorEntry(Pharma, "Pharma & Health"),
    SectorEntry(Energy, "Energy & Power"),
    SectorEntry(Fmcg, "FMCG"),
    SectorEntry(Metals, "Metals & Mining"),
    SectorEntry(Infra, "Infrastructure")
  ]

  /** The strategy table behind the strategy selector. */
  const Strategies: seq<StrategyEntry> := [
    StrategyEntry(IqrZScore, "IQR Z-Score", "Mean reversion using IQR-normalized Z-scores. Buy if Z<-2, Sell if Z>2"),
    StrategyEntry(WeightedLinear, "Weighted Linear", "Correlation-weighted signal with logistic calibration"),
    StrategyEntry(MlEnsemble, "ML Ensemble", "CatBoost + XGBoost + LightGBM ensemble with 65% confidence filter"),
    StrategyEntry(NeuralNet, "Neural Net", "128→64→32 feed-forward NN with learned long/short thresholds"),
    StrategyEntry(Hybrid, "Hybrid Signal", "Combined mean-reversion + deep-learned directional confidence")
  ]

  /** Every signal, in declaration order. */
  const AllSignals: seq<Signal> := [Buy, Sell, Hold]

  /** Every strategy, in declaration order; also the dashboard's initial selection. */
  const AllStrategies: seq<Strategy> := [IqrZScore, WeightedLinear, MlEnsemble, NeuralNet, Hybrid]

  /** Every sector, in declaration order. */
  const AllSectors: seq<Sector> := [IT, Banking, Auto, Pharma, Energy, Fmcg, Metals, Infra]

  function Analysis(z: real, w: real, ml: real, nn: real, lt: real, st: real,
                    calmar: real, sharpe: real, dd: real, ann: real): StrategyAnalysis
  {
    StrategyAnalysis(iqrZScore := z, weightedSignal := w, mlConfidence := ml, nnProbability := nn,
                     longThreshold := lt, shortThreshold := st, calmarRatio := calmar,
                     sharpeRatio := sharpe, maxDrawdown := dd, annualReturn := ann)
  }

  /** The twelve stock alerts shown on the stocks tab. */
  const MockAlerts: seq<StockAlert> := [
    StockAlert(id := "1", symbol := "RELIANCE", name := "Reliance Industries Ltd", exchange := NSE,
      currentPrice := 2847.50, targetPrice := 3135.00, stopLoss := 2790.00,
      signal := Buy, strategy := NeuralNet, quantity := 15, confidence := 92,
      change := 42.30, changePercent := 1.51, rsi := 42, volume := "12.4M",
      timestamp := "2 min ago", sector := Energy,
      reason := "NN probability 0.78 > Long Threshold 0.56. IQR Z-Score at -1.8 confirming mean reversion. ML ensemble agrees at 82% confidence. Expected 10.1% daily return after 2bps cost.",
      expectedReturn := 10.1,
      analysis := Analysis(-1.8, 0.72, 0.82, 0.78, 0.56, 0.45, 8.2, 3.4, -2.1, 28.5)),
    StockAlert(id := "2", symbol := "TCS", name := "Tata Consultancy Services", exchange := NSE,
      currentPrice := 3892.15, targetPrice := 3500.00, stopLoss := 3970.00,
      signal := Sell, strategy := IqrZScore, quantity := 8, confidence := 88,
      change := -67.85, changePercent := -1.71, rsi := 76, volume := "5.8M",
      timestamp := "5 min ago", sector := IT,
      reason := "IQR Z-Score at +2.4 (>2 threshold) — overbought mean reversion trigger. NN short threshold breached at p=0.38 < 0.45. Weighted signal -0.65. Target 10% correction.",
      expectedReturn := 12.3,
      analysis := Analysis(2.4, -0.65, 0.79, 0.38, 0.65, 0.45, 6.8, 3.1, -3.2, 22.1)),
    StockAlert(id := "3", symbol := "INFY", name := "Infosys Ltd", exchange := NSE,
      currentPrice := 1567.40, targetPrice := 1750.00, stopLoss := 1530.00,
      signal := Buy, strategy := MlEnsemble, quantity := 25, confidence := 86,
      change := 18.90, changePercent := 1.22, rsi := 38, volume := "8.2M",
      timestamp := "8 min ago", sector := IT,
      reason := "CatBoost ensemble 87% confidence (>65% filter). Morning volatility features confirm bullish EOD direction. IQR Z at -1.5 supports. Expected 11.6% daily return.",
      expectedReturn := 11.6,
      analysis := Analysis(-1.5, 0.58, 0.87, 0.71, 0.56, 0.45, 9.1, 3.8, -1.8, 31.2)),
    StockAlert(id := "4", symbol := "HDFCBANK", name := "HDFC Bank Ltd", exchange := NSE,
      currentPrice := 1685.20, targetPrice := 1685.20, stopLoss := 1685.20,
      signal := Hold, strategy := Hybrid, quantity := 0, confidence := 52,
      change := 3.10, changePercent := 0.18, rsi := 52, volume := "9.1M",
      timestamp := "12 min ago", sector := Banking,
      reason := "NN probability 0.51 in neutral zone (0.45 < p < 0.56). IQR Z at 0.3 — no mean reversion signal. ML ensemble at 54% below 65% filter. No trade recommended.",
      expectedReturn := 0.0,
      analysis := Analysis(0.3, 0.08, 0.54, 0.51, 0.56, 0.45, 2.1, 0.8, -4.5, 5.2)),
    StockAlert(id := "5", symbol := "TATAMOTORS", name := "Tata Motors Ltd", exchange := NSE,
      currentPrice := 945.75, targetPrice := 1090.00, stopLoss := 920.00,
      signal := Buy, strategy := NeuralNet, quantity := 30, confidence := 95,
      change := 28.45, changePercent := 3.10, rsi := 35, volume := "18.7M",
      timestamp := "1 min ago", sector := Auto,
      reason := "NN probability 0.89 >> LT 0.56. All 5 models agree on BUY. IQR Z at -2.3 (<-2 threshold). Volume 2.5x avg confirms institutional buying. Calmar 12.1. Expected 15.2% daily.",
      expectedReturn := 15.2,
      analysis := Analysis(-2.3, 0.91, 0.93, 0.89, 0.56, 0.45, 12.1, 4.5, -1.2, 34.6)),
    StockAlert(id := "6", symbol := "WIPRO", name := "Wipro Ltd", exchange := NSE,
      currentPrice := 478.30, targetPrice := 430.00, stopLoss := 500.00,
      signal := Sell, strategy := WeightedLinear, quantity := 40, confidence := 81,
      change := -12.60, changePercent := -2.57, rsi := 68, volume := "6.3M",
      timestamp := "15 min ago", sector := IT,
      reason := "Weighted linear signal -0.78 with high correlation features bearish. NN p=0.32 < ST 0.45 confirms short. IQR Z at +2.1 overbought. Post-cost expected 10.8% daily return.",
      expectedReturn := 10.8,
      analysis := Analysis(2.1, -0.78, 0.76, 0.32, 0.65, 0.45, 7.5, 2.9, -3.8, 19.4)),
    StockAlert(id := "7", symbol := "ICICIBANK", name := "ICICI Bank Ltd", exchange := NSE,
      currentPrice := 1124.80, targetPrice := 1260.00, stopLoss := 1090.00,
      signal := Buy, strategy := Hybrid, quantity := 20, confidence := 90,
      change := 15.20, changePercent := 1.37, rsi := 32, volume := "11.5M",
      timestamp := "3 min ago", sector := Banking,
      reason := "Hybrid signal: IQR Z-Score -2.1 (mean reversion BUY) + NN directional confidence 0.81. CatBoost 88% bullish. Sharpe 4.1 — strongest risk-adjusted signal today. Expected 13.5%.",
      expectedReturn := 13.5,
      analysis := Analysis(-2.1, 0.82, 0.88, 0.81, 0.56, 0.45, 10.8, 4.1, -1.5, 32.8)),
    StockAlert(id := "8", symbol := "ADANIENT", name := "Adani Enterprises Ltd", exchange := NSE,
      currentPrice := 2890.00, targetPrice := 2610.00, stopLoss := 2980.00,
      signal := Sell, strategy := MlEnsemble, quantity := 5, confidence := 84,
      change := -95.40, changePercent := -3.20, rsi := 72, volume := "14.2M",
      timestamp := "7 min ago", sector := Infra,
      reason := "ML ensemble 84% bearish with XGBoost leading. NN p=0.29 < ST 0.35. IQR Z +2.8 extreme overbought. Max drawdown risk only -2.9%. Expected 14.1% daily on short.",
      expectedReturn := 14.1,
      analysis := Analysis(2.8, -0.85, 0.84, 0.29, 0.65, 0.35, 9.4, 3.7, -2.9, 27.3)),
    StockAlert(id := "9", symbol := "SUNPHARMA", name := "Sun Pharmaceutical", exchange := NSE,
      currentPrice := 1245.60, targetPrice := 1400.00, stopLoss := 1210.00,
      signal := Buy, strategy := IqrZScore, quantity := 18, confidence := 87,
      change := 22.10, changePercent := 1.81, rsi := 45, volume := "7.1M",
      timestamp := "4 min ago", sector := Pharma,
      reason := "IQR Z-Score at -2.2 triggered mean reversion BUY. Weighted signal 0.67 confirms. NN agrees at p=0.74 > LT. Morning features show bullish EOD direction. Expected 12.4%.",
      expectedReturn := 12.4,
      analysis := Analysis(-2.2, 0.67, 0.81, 0.74, 0.56, 0.45, 8.9, 3.5, -2.4, 26.1)),
    StockAlert(id := "10", symbol := "HINDUNILVR", name := "Hindustan Unilever", exchange := NSE,
      currentPrice := 2534.90, targetPrice := 2280.00, stopLoss := 2590.00,
      signal := Sell, strategy := NeuralNet, quantity := 10, confidence := 83,
      change := -31.20, changePercent := -1.22, rsi := 71, volume := "3.9M",
      timestamp := "10 min ago", sector := Fmcg,
      reason := "NN probability 0.31 < Short Threshold 0.45. IQR Z at +1.9 approaching overbought. Weighted signal -0.58. Post 2bps cost, expected 10.5% daily return on short position.",
      expectedReturn := 10.5,
      analysis := Analysis(1.9, -0.58, 0.72, 0.31, 0.65, 0.45, 6.2, 2.6, -4.1, 18.7)),
    StockAlert(id := "11", symbol := "TATASTEEL", name := "Tata Steel Ltd", exchange := NSE,
      currentPrice := 145.30, targetPrice := 168.00, stopLoss := 140.00,
      signal := Buy, strategy := Hybrid, quantity := 100, confidence := 93,
      change := 4.80, changePercent := 3.42, rsi := 38, volume := "22.1M",
      timestamp := "1 min ago", sector := Metals,
      reason := "Hybrid signal strongest today: IQR Z -2.5 + NN 0.87 + ML 91%. All models converge. Calmar 11.5, Sharpe 4.3. FII buying + China stimulus. Expected 16.8% daily return.",
      expectedReturn := 16.8,
      analysis := Analysis(-2.5, 0.88, 0.91, 0.87, 0.56, 0.45, 11.5, 4.3, -1.3, 34.2)),
    StockAlert(id := "12", symbol := "BAJFINANCE", name := "Bajaj Finance Ltd", exchange := NSE,
      currentPrice := 7120.00, targetPrice := 7900.00, stopLoss := 6950.00,
      signal := Buy, strategy := WeightedLinear, quantity := 4, confidence := 85,
      change := 85.50, changePercent := 1.22, rsi := 41, volume := "4.5M",
      timestamp := "6 min ago", sector := Banking,
      reason := "Weighted linear signal 0.74 (high correlation PB features). NN p=0.69 > LT 0.56. ML 83% bullish. Support zone confirmed by IQR Z -1.7. Expected 11.0% daily return.",
      expectedReturn := 11.0,
      analysis := Analysis(-1.7, 0.74, 0.83, 0.69, 0.56, 0.45, 7.8, 3.2, -2.8, 24.5))
  ]

  /** The eight derivatives contracts shown on the F&O tab. */
  const MockFnO: seq<FnOContract> := [
    FnOContract(id := "f1", symbol := "NIFTY", name := "NIFTY 50 Index", kind := Call,
      expiry := "27 Feb 2026", strikePrice := 22200.0, ltp := 185.40,
      change := 32.50, changePercent := 21.27, oi := "1.2Cr", oiChange := "+12.5L",
      volume := "45.2L", iv := 14.2, signal := Buy, lotSize := 25, lots := 4,
      confidence := 85, reason := "High OI buildup at 22000 PE. NIFTY likely to sustain above 22100."),
    FnOContract(id := "f2", symbol := "BANKNIFTY", name := "Bank NIFTY Index", kind := Put,
      expiry := "27 Feb 2026", strikePrice := 47000.0, ltp := 342.80,
      change := -87.20, changePercent := -20.27, oi := "85.3L", oiChange := "-5.2L",
      volume := "32.1L", iv := 16.8, signal := Sell, lotSize := 15, lots := 2,
      confidence := 78, reason := "PUT unwinding at 47000. Bank NIFTY showing strength above support."),
    FnOContract(id := "f3", symbol := "RELIANCE", name := "Reliance Industries", kind := Future,
      expiry := "27 Feb 2026", strikePrice := 0.0, ltp := 2855.60,
      change := 48.30, changePercent := 1.72, oi := "52.4L", oiChange := "+8.1L",
      volume := "18.7L", iv := 0.0, signal := Buy, lotSize := 250, lots := 2,
      confidence := 82, reason := "Long buildup with 15% OI increase. Futures premium expanding."),
    FnOContract(id := "f4", symbol := "NIFTY", name := "NIFTY 50 Index", kind := Put,
      expiry := "27 Feb 2026", strikePrice := 21800.0, ltp := 98.50,
      change := -24.30, changePercent := -19.80, oi := "95.1L", oiChange := "+18.3L",
      volume := "52.8L", iv := 15.1, signal := Buy, lotSize := 25, lots := 6,
      confidence := 90, reason := "Massive PUT writing at 21800. Strong support building for NIFTY."),
    FnOContract(id := "f5", symbol := "TCS", name := "Tata Consultancy Services", kind := Call,
      expiry := "27 Feb 2026", strikePrice := 3900.0, ltp := 62.30,
      change := -18.50, changePercent := -22.89, oi := "12.8L", oiChange := "+3.2L",
      volume := "5.4L", iv := 18.5, signal := Sell, lotSize := 175, lots := 1,
      confidence := 71, reason := "CALL writing at 3900 strike. Resistance expected near earnings."),
    FnOContract(id := "f6", symbol := "TATAMOTORS", name := "Tata Motors Ltd", kind := Call,
      expiry := "27 Feb 2026", strikePrice := 960.0, ltp := 24.70,
      change := 8.90, changePercent := 56.33, oi := "28.5L", oiChange := "+6.8L",
      volume := "14.2L", iv := 32.1, signal := Buy, lotSize := 575, lots := 3,
      confidence := 86, reason := "OI addition with price surge. Short covering rally expected above 960."),
    FnOContract(id := "f7", symbol := "HDFCBANK", name := "HDFC Bank Ltd", kind := Future,
      expiry := "27 Feb 2026", strikePrice := 0.0, ltp := 1688.40,
      change := -5.20, changePercent := -0.31, oi := "44.2L", oiChange := "-2.1L",
      volume := "12.6L", iv := 0.0, signal := Hold, lotSize := 550, lots := 0,
      confidence := 52, reason := "Short covering with flat OI. No directional conviction in futures."),
    FnOContract(id := "f8", symbol := "BANKNIFTY", name := "Bank NIFTY Index", kind := Call,
      expiry := "27 Feb 2026", strikePrice := 47500.0, ltp := 215.60,
      change := 52.30, changePercent := 32.03, oi := "62.1L", oiChange := "+9.4L",
      volume := "28.9L", iv := 17.2, signal := Buy, lotSize := 15, lots := 3,
      confidence := 83, reason := "Aggressive CALL buying at 47500. Breakout momentum building.")
  ]

  /** The six offerings shown on the IPO tab. */
  const MockIPOs: seq<IPOListing> := [
    IPOListing(id := "ipo1", company := "Hexaware Technologies Ltd", symbol := "HEXAWARE",
      priceRange := "₹674 - ₹708", issueSize := "₹8,750 Cr", lotSize := 21,
      openDate := "12 Feb 2026", closeDate := "14 Feb 2026", listingDate := "19 Feb 2026",
      status := Listed, gmp := 42, subscription := "26.5x",
      rating := Subscribe, sector := "IT Services", board := Mainboard),
    IPOListing(id := "ipo2", company := "Ather Energy Pvt Ltd", symbol := "ATHER",
      priceRange := "₹304 - ₹321", issueSize := "₹3,100 Cr", lotSize := 46,
      openDate := "25 Feb 2026", closeDate := "27 Feb 2026", listingDate := "04 Mar 2026",
      status := Open, gmp := 65, subscription := "8.2x",
      rating := Subscribe, sector := "Electric Vehicles", board := Mainboard),
    IPOListing(id := "ipo3", company := "Zepto Quick Commerce", symbol := "ZEPTO",
      priceRange := "₹450 - ₹480", issueSize := "₹5,500 Cr", lotSize := 31,
      openDate := "05 Mar 2026", closeDate := "07 Mar 2026", listingDate := "12 Mar 2026",
      status := Upcoming, gmp := 85, subscription := "-",
      rating := Subscribe, sector := "E-Commerce", board := Mainboard),
    IPOListing(id := "ipo4", company := "PhysicsWallah Ltd", symbol := "PW",
      priceRange := "₹280 - ₹295", issueSize := "₹2,800 Cr", lotSize := 50,
      openDate := "10 Mar 2026", closeDate := "12 Mar 2026", listingDate := "17 Mar 2026",
      status := Upcoming, gmp := 30, subscription := "-",
      rating := Neutral, sector := "EdTech", board := Mainboard),
    IPOListing(id := "ipo5", company := "Swiggy Instamart Foods", symbol := "SWIGGYF",
      priceRange := "₹120 - ₹135", issueSize := "₹420 Cr", lotSize := 110,
      openDate := "20 Feb 2026", closeDate := "22 Feb 2026", listingDate := "27 Feb 2026",
      status := Closed, gmp := -8, subscription := "1.4x",
      rating := Avoid, sector := "Food & Beverages", board := Sme),
    IPOListing(id := "ipo6", company := "Lenskart Solutions Ltd", symbol := "LENSKART",
      priceRange := "₹820 - ₹860", issueSize := "₹4,200 Cr", lotSize := 17,
      openDate := "15 Mar 2026", closeDate := "17 Mar 2026", listingDate := "22 Mar 2026",
      status := Upcoming, gmp := 110, subscription := "-",
      rating := Subscribe, sector := "Retail / D2C", board := Mainboard)
  ]
}
