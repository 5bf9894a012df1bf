/**
  The three-step onboarding wizard: step 1 asks for the investment amount,
  step 2 for the holding period, step 3 shows suggestions and hands the
  profile to the dashboard. The wizard's React state (`amount`, `holding`,
  `step`) is a class whose methods are the on-screen events.
*/
module Onboarding {
  import opened Wrappers
  import opened AmountFormat

  /** One entry of `holdingOptions`. */
  datatype HoldingOption = HoldingOption(value: string, caption: string, desc: string)

  const HoldingOptions: seq<HoldingOption> := [
    HoldingOption("intraday", "Intraday", "Same day trades"),
    HoldingOption("swing", "Swing (1-2 weeks)", "Short-term momentum"),
    HoldingOption("short", "1-3 Months", "Positional trades"),
    HoldingOption("medium", "3-12 Months", "Medium-term growth"),
    HoldingOption("long", "1+ Year", "Long-term wealth")
  ]

  /** The preset amount buttons of step 1. */
  const QuickAmounts: seq<string> := ["50,000", "1,00,000", "2,50,000", "5,00,000", "10,00,000"]

  /** A suggestion card of step 3 (its emoji icon is not modelled). */
  datatype Suggestion = Suggestion(title: string, desc: string)

  /** The data passed to `onComplete`. */
  datatype Completion = Completion(amount: nat, holding: string)

  /** The look of one dot of the step indicator. */
  datatype Dot = Current | Done | Pending

  predicate IsHoldingValue(h: string) {
    exists i :: 0 <= i < |HoldingOptions| && HoldingOptions[i].value == h
  }

  /** `holdingOptions.find(h => h.value === holding)?.label`. */
  function HorizonCaption(holding: string): (r: Option<string>)
    ensures r.Some? <==> IsHoldingValue(holding)
    ensures r.Some? ==> exists i :: 0 <= i < |HoldingOptions| && HoldingOptions[i] == HoldingOption(holding, r.value, HoldingOptions[i].desc)
  {
    FindCaption(HoldingOptions, holding)
  }

  /** The caption of the first option of `options` whose value is `holding`. */
  function FindCaption(options: seq<HoldingOption>, holding: string): (r: Option<string>)
    ensures r.Some? <==> exists i :: 0 <= i < |options| && options[i].value == holding
    ensures r.Some? ==> exists i :: 0 <= i < |options| && options[i] == HoldingOption(holding, r.value, options[i].desc)
  {
    if options == [] then None
    else if options[0].value == holding then Some(options[0].caption)
    else
      var r := FindCaption(options[1..], holding);
      assert forall i :: 1 <= i < |options| ==> options[i] == options[1..][i - 1];
      r
  }

  /** The four suggestion cards; the fourth depends on whether the horizon is intraday. */
  function Suggestions(holding: string): (r: seq<Suggestion>)
    ensures |r| == 4
    ensures r[3].title == "Focus on F&O" <==> holding == "intraday"
    ensures r[3].title == "Start with large caps" <==> holding != "intraday"
  {
    [
      Suggestion("Diversify across sectors", "Spread your capital across IT, Banking, Auto & Pharma to reduce risk."),
      Suggestion("Use stop-loss strictly", "Never risk more than 2% of your capital on a single trade."),
      Suggestion("Follow ADX+ATR+VWAP", "Our flagship strategy combines trend strength, volatility & volume for highest accuracy."),
      if holding == "intraday" then
        Suggestion("Focus on F&O", "For intraday, F&O gives better leverage with defined risk.")
      else
        Suggestion("Start with large caps", "Blue-chip stocks like Reliance, TCS give stable returns for your timeframe.")
    ]
  }

  /** The "Minimum ₹1,000 required" hint: something is typed but it is below the minimum. */
  predicate MinimumHintShown(amount: string) {
    amount != "" && !IsValidAmount(amount)
  }

  /** The dot for step `s` while the wizard is at `step`. */
  function StepDot(s: int, step: int): (d: Dot)
    ensures d == Current <==> s == step
    ensures d == Done <==> s < step
    ensures d == Pending <==> s > step
  {
    if s == step then Current else if s < step then Done else Pending
  }

  class Wizard {
    var amount: string
    var holding: string
    var step: int

    /**
      The amount field always holds its own formatting, the holding is empty
      or one of the options, and a later step is only reached with what the
      earlier one demanded.
    */
    ghost predicate Valid()
      reads this
    {
      && 1 <= step <= 3
      && FormatAmount(amount) == amount
      && (holding == "" || IsHoldingValue(holding))
      && (step >= 2 ==> IsValidAmount(amount))
      && (step == 3 ==> holding != "")
    }

    constructor ()
      ensures Valid()
      ensures amount == "" && holding == "" && step == 1
    {
      amount := "";
      holding := "";
      step := 1;
      assert DigitsOnly("") == "";
    }

    /** Typing into the amount field: only what `formatAmount` makes of the input is kept. */
    method TypeAmount(input: string)
      requires Valid()
      modifies this
      ensures Valid()
      ensures amount == (if old(step) == 1 then FormatAmount(input) else old(amount))
      ensures holding == old(holding) && step == old(step)
    {
      if step == 1 {
        FormatIdempotent(input);
        amount := FormatAmount(input);
      }
    }

    /** Pressing the `i`-th preset amount button. */
    method ChooseQuickAmount(i: nat)
      requires Valid() && i < |QuickAmounts|
      modifies this
      ensures Valid()
      ensures amount == (if old(step) == 1 then QuickAmounts[i] else old(amount))
      ensures holding == old(holding) && step == old(step)
    {
      if step == 1 {
        PresetsAreFormatted();
        amount := QuickAmounts[i];
      }
    }

    /** "Continue" on step 1: it moves on only when the amount meets the minimum. */
    method ContinueFromAmount()
      requires Valid()
      modifies this
      ensures Valid()
      ensures step == (if old(step) == 1 && IsValidAmount(amount) then 2 else old(step))
      ensures amount == old(amount) && holding == old(holding)
    {
      if step == 1 && IsValidAmount(amount) {
        step := 2;
      }
    }

    /** Pressing the `i`-th holding-period button on step 2. */
    method ChooseHolding(i: nat)
      requires Valid() && i < |HoldingOptions|
      modifies this
      ensures Valid()
      ensures holding == (if old(step) == 2 then HoldingOptions[i].value else old(holding))
      ensures amount == old(amount) && step == old(step)
    {
      if step == 2 {
        holding := HoldingOptions[i].value;
      }
    }

    /** "Back" on step 2 returns to step 1, keeping what was entered. */
    method Back()
      requires Valid()
      modifies this
      ensures Valid()
      ensures step == (if old(step) == 2 then 1 else old(step))
      ensures amount == old(amount) && holding == old(holding)
    {
      if step == 2 {
        step := 1;
      }
    }

    /** "Continue" on step 2: it moves on only once a holding period is chosen. */
    method ContinueFromHolding()
      requires Valid()
      modifies this
      ensures Valid()
      ensures step == (if old(step) == 2 && holding != "" then 3 else old(step))
      ensures amount == old(amount) && holding == old(holding)
    {
      if step == 2 && holding != "" {
        step := 3;
      }
    }

    /**
      "Start Scanning Stocks" on step 3: the profile handed to `onComplete`.
      Only step 3 shows the button, and what it hands over always meets the
      minimum and names one of the holding options.
    */
    method Start() returns (payload: Option<Completion>)
      requires Valid()
      ensures payload.Some? <==> step == 3
      ensures payload.Some? ==> payload.value.holding == holding && IsHoldingValue(holding)
      ensures payload.Some? ==> ParsedAmount(amount) == Some(payload.value.amount) && payload.value.amount >= 1000
    {
      if step == 3 {
        payload := Some(Completion(ParsedAmount(amount).value, holding));
      } else {
        payload := None;
      }
    }
  }

  /** Every preset is already in the field's own format and meets the minimum. */
  lemma PresetsAreFormatted()
    ensures forall i :: 0 <= i < |QuickAmounts| ==> FormatAmount(QuickAmounts[i]) == QuickAmounts[i]
    ensures forall i :: 0 <= i < |QuickAmounts| ==> IsValidAmount(QuickAmounts[i])
  {
    var numerals := ["50000", "100000", "250000", "500000", "1000000"];
    forall i | 0 <= i < |QuickAmounts|
      ensures FormatAmount(QuickAmounts[i]) == QuickAmounts[i] && IsValidAmount(QuickAmounts[i])
    {
      PresetIsGrouping(i, numerals);
      GroupedCanonicalIsFixed(numerals[i]);
      FormattedValidIffComma(QuickAmounts[i]);
    }
  }

  lemma PresetIsGrouping(i: nat, numerals: seq<string>)
    requires numerals == ["50000", "100000", "250000", "500000", "1000000"] && i < |QuickAmounts|
    ensures Canonical(numerals[i]) && QuickAmounts[i] == GroupIndian(numerals[i])
    ensures ',' in QuickAmounts[i]
  {
    if i == 0 {
      PresetGrouping("50000", "50", "", "", "50,000");
    } else if i == 1 {
      PresetGrouping("100000", "100", "1", "00", "1,00,000");
    } else if i == 2 {
      PresetGrouping("250000", "250", "2", "50", "2,50,000");
    } else if i == 3 {
      PresetGrouping("500000", "500", "5", "00", "5,00,000");
    } else {
      PresetGrouping("1000000", "1000", "10", "00", "10,00,000");
    }
  }

  /** A numeral ending in `000` whose leading part has at most two groups of two. */
  lemma PresetGrouping(ds: string, front: string, lead: string, pair: string, shown: string)
    requires Canonical(ds) && ds == front + "000"
    requires if |front| <= 2 then shown == front + ",000" else |lead| <= 2 && front == lead + pair && |pair| == 2 && shown == lead + "," + pair + ",000"
    ensures shown == GroupIndian(ds) && ',' in shown
  {
    GroupOnce(ds, front, "000");
    if |front| > 2 {
      PairOnce(front, lead, pair);
    }
    assert shown[|shown| - 4] == ',';
  }

  /** Unfolds `GroupIndian` once on a numeral of more than three digits. */
  lemma GroupOnce(ds: string, front: string, thousands: string)
    requires |ds| > 3 && ds == front + thousands && |thousands| == 3
    ensures GroupIndian(ds) == GroupPairs(front) + "," + thousands
  {
    assert ds[..|ds| - 3] == front && ds[|ds| - 3..] == thousands;
  }

  /** Unfolds `GroupPairs` once on more than two digits. */
  lemma PairOnce(h: string, front: string, pair: string)
    requires |h| > 2 && h == front + pair && |pair| == 2
    ensures GroupPairs(h) == GroupPairs(front) + "," + pair
  {
    assert h[..|h| - 2] == front && h[|h| - 2..] == pair;
  }

  /** The hint appears exactly for a non-empty field without a thousands separator. */
  lemma HintIffNoComma(amount: string)
    requires FormatAmount(amount) == amount
    ensures MinimumHintShown(amount) <==> amount != "" && ',' !in amount
  {
    FormattedValidIffComma(amount);
  }

  /** Typing `999` keeps it, leaves "Continue" disabled and shows the hint. */
  lemma TypingBelowMinimum()
    ensures FormatAmount("999") == "999"
    ensures !IsValidAmount("999") && MinimumHintShown("999")
  {
    GroupedCanonicalIsFixed("999");
    FormattedValidIffComma("999");
  }

  /** Typing `1000` shows `1,000`. */
  lemma TypingTheMinimum()
    ensures FormatAmount("1000") == "1,000"
  {
    var ds := "1000";
    GroupOnce(ds, "1", "000");
    FormatKeepsCanonical(ds);
  }

  /** `1,000` reads back as exactly the minimum. */
  lemma MinimumReadsBack()
    ensures ParsedAmount("1,000") == Some(1000) && IsValidAmount("1,000")
  {
    var ds := "1000";
    GroupOnce(ds, "1", "000");
    GroupIndianContent(ds);
    assert GroupIndian(ds) == "1,000";
    assert StripCommas("1,000") == ds;
    assert AllDigits(ds);
    ThousandValue();
  }

  lemma ThousandValue()
    ensures DecimalValue("1000") == 1000
  {
    assert "1000"[..3] == "100";
    assert "100"[..2] == "10";
    assert "10"[..1] == "1";
    assert "1"[..0] == "";
  }

  /** A canonical numeral typed as it is gets its grouping. */
  lemma FormatKeepsCanonical(ds: string)
    requires Canonical(ds)
    ensures FormatAmount(ds) == GroupIndian(ds)
  {
    FilterKeepsAllDigits(ds);
    CanonicalRoundTrip(ds);
  }

  lemma FilterKeepsAllDigits(ds: string)
    requires AllDigits(ds)
    ensures DigitsOnly(ds) == ds
  {
    Collections.FilterKeepsAll(ds, IsDigit);
  }

  /** Typing letters only leaves the field empty, so neither the hint nor "Continue" is on. */
  lemma TypingLetters()
    ensures FormatAmount("abc") == ""
    ensures !MinimumHintShown("") && !IsValidAmount("")
  {
    Collections.FilterKeepsNone("abc", IsDigit);
    assert StripCommas("") == "";
  }
}
