# StockPulse AI dashboard — a verified model

This project models the core of the StockPulse AI stock dashboard in Dafny and
proves properties of it:

- the domain data: signals, strategies and sectors; the stock-alert, F&O-contract
  and IPO records; the sector and strategy tables; and the fixture collections
  that stand in for a data feed;
- the dashboard page: its session state as a class (`Dashboard.Page`), its
  handlers, and the three order-preserving filters it derives its views from;
- the statistics row: the signal counts and the mean confidence rounded as
  `Math.round` does;
- the three-step onboarding wizard as a class (`Onboarding.Wizard`). Its amount
  field re-renders every keystroke with Indian digit grouping, and it reads the
  amount back with the commas removed;
- the strategy corner: its hybrid signal and its transaction cost;
- the alert card: its badge, tag, visibility rules, sign prefixes and tile colours.

The IQR/neural-net/ensemble colour rules that the card and the corner both apply
are defined once, in `Zones`.

Modules, one per file:

- `Wrappers`: `Option`.
- `Collections`: `Array.prototype.filter` as `Filter`, with its laws.
- `Text`: ASCII lower-casing and `String.prototype.includes`.
- `StockData`: types, tables and fixtures.
- `FixtureFacts`: the consistency of the fixtures.
- `Filters`: the three filters and the strategy toggle.
- `FnOSearch`: the F&O search applied to the contract fixture.
- `MarketStats`
- `AmountFormat`
- `Onboarding`
- `Zones`
- `AlertCard`
- `StrategyCorner`
- `Dashboard`

Decimal fields are exact `real`s. Integers are unbounded. Strings are `seq<char>`.

Field names that clash with Dafny keywords are renamed:

- `type` of a contract is `kind`.
- `type` of an IPO is `board`.
- `label` of a table entry is `caption`.

## Model

| member | source | states |
|---|---|---|
| Collections.FilterMembership | src/pages/Index.tsx:40-48 | `filter` keeps an element iff it is in the input and satisfies the predicate |
| Collections.FilterMultiplicity | src/pages/Index.tsx:40-48 | `filter` keeps every copy of an accepted element and none of a rejected one |
| Collections.FilterIsSubsequence | src/pages/Index.tsx:40-48 | `filter` preserves order: its result is a subsequence of its input |
| Collections.FilterAppend | src/components/OnboardingScreen.tsx:49-53 | filtering a concatenation filters each part (used for the regex `replace` calls) |
| Collections.FilterLengthCountsIndices | src/components/MarketStats.tsx:9-11 | the length of a filter is the number of positions satisfying the predicate |
| Collections.FilterKeepsNoDuplicates | src/pages/Index.tsx:34-38 | filtering a duplicate-free list keeps it duplicate-free |
| Text.IncludesIffOccurs | src/pages/Index.tsx:45 | `includes` holds iff the needle occurs at some index of the haystack |
| Text.IncludesEmpty | src/pages/Index.tsx:45 | every string includes the empty string |
| Text.LowerIdempotent | src/pages/Index.tsx:45 | lower-casing twice is lower-casing once |
| Text.MatchIgnoresFieldCase | src/pages/Index.tsx:45 | the case-insensitive match does not depend on the case of the field |
| FixtureFacts.SignalIsClosed | src/data/stockData.ts:1 | the signal type has exactly the three values BUY, SELL, HOLD |
| FixtureFacts.StrategyIsClosed | src/data/stockData.ts:3 | the strategy type has exactly five values, in declaration order |
| FixtureFacts.SectorIsClosed | src/data/stockData.ts:5 | the sector type has exactly eight values, in declaration order |
| FixtureFacts.StrategyTableComplete | src/data/stockData.ts:93-99 | the strategy table lists every strategy once, in type order |
| FixtureFacts.SectorTableComplete | src/data/stockData.ts:82-91 | the sector table lists every sector once, in type order |
| FixtureFacts.AlertsSizedBySignal | src/data/stockData.ts:101-270 | quantity and expected return are zero exactly for the HOLD alert and positive otherwise |
| FixtureFacts.AlertPricesOrdered | src/data/stockData.ts:101-270 | target and stop-loss lie on the sides of the price that each alert's signal implies |
| FixtureFacts.AlertThresholdsAgree | src/data/stockData.ts:101-270 | each alert's thresholds are ordered and its NN probability lies in its signal's zone |
| FixtureFacts.AlertIdsDistinct | src/data/stockData.ts:101-270 | alert identifiers are pairwise distinct |
| FixtureFacts.FuturesHaveNoStrike | src/data/stockData.ts:272-329 | every future has strike 0 and IV 0 |
| FixtureFacts.HoldContractHasNoLots | src/data/stockData.ts:272-329 | only the one HOLD contract recommends zero lots |
| Filters.SearchGuardRedundant | src/pages/Index.tsx:45 | the `search &&` guard is only a shortcut: a search admits a record iff it matches one of its fields, the empty search matching every field |
| Filters.FilterStocksSpec | src/pages/Index.tsx:40-48 | an alert is shown iff its strategy is selected, the signal and sector filters admit it and the search matches symbol or name; the order and multiplicity of the input are preserved |
| Filters.InitialFilterKeepsAll | src/pages/Index.tsx:23-26 | the initial filter state shows every alert in original order |
| Filters.SignalFilterAlone | src/pages/Index.tsx:43 | with all strategies selected and no sector or search, the stocks view is the signal filter alone |
| Filters.EmptySelectionShowsNothing | src/pages/Index.tsx:42 | with no strategy selected nothing is shown |
| Filters.FilterFnOSpec | src/pages/Index.tsx:50-56 | a contract is shown iff the signal filter admits it and the search matches its symbol; order and multiplicity of the input are preserved |
| Filters.ContractNameIgnored | src/pages/Index.tsx:53 | the F&O search never looks at the contract's name |
| Filters.FilterIPOsSpec | src/pages/Index.tsx:58-63 | an IPO is shown iff the search matches company or symbol; order and multiplicity of the input are preserved |
| Filters.ToggleFlips | src/pages/Index.tsx:34-38 | toggling flips membership of the toggled strategy and no other |
| Filters.ToggleKeepsNoDuplicates | src/pages/Index.tsx:34-38 | toggling keeps the selection duplicate-free |
| Filters.ToggleTwiceRestoresSet | src/pages/Index.tsx:34-38 | toggling twice restores the selected set |
| FnOSearch.NiftySearchIsSubstringMatch | src/pages/Index.tsx:53 | searching "nifty" on the F&O tab shows exactly the NIFTY and BANKNIFTY contracts, in order |
| MarketStats.AvgConfidence | src/components/MarketStats.tsx:12 | the mean confidence is `NaN` exactly for an empty list |
| MarketStats.RoundHalfUp | src/components/MarketStats.tsx:12 | `Math.round` returns the integer within half a unit, halves rounding up |
| MarketStats.CountIsNumberOfCarriers | src/components/MarketStats.tsx:9-11 | each count is the number of positions carrying that signal |
| MarketStats.CountsPartition | src/components/MarketStats.tsx:9-11 | buy, sell and hold counts add up to the number of alerts |
| MarketStats.UniformSignalCounts | src/components/MarketStats.tsx:9-11 | when all alerts carry one signal, its count is the length and the others are 0 |
| MarketStats.AverageIntegerForm | src/components/MarketStats.tsx:12 | for n alerts with sum S, the rounded mean is `(2S + n) div 2n` |
| MarketStats.AverageBetweenExtremes | src/components/MarketStats.tsx:12 | the rounded mean lies between the least and the greatest confidence |
| MarketStats.FixtureCounts | src/components/MarketStats.tsx:9-11 | the full fixture has 7 BUY, 4 SELL and 1 HOLD alerts |
| MarketStats.FixtureSummary | src/components/MarketStats.tsx:9-12 | the full fixture summarises to 7, 4, 1 and a rounded mean of 85 |
| AmountFormat.ToDigits | src/components/OnboardingScreen.tsx:52 | the numeral of a number is canonical (no superfluous leading zero) and denotes that number |
| AmountFormat.GroupIndianShape | src/components/OnboardingScreen.tsx:52 | Indian grouping puts a comma exactly at positions 3, 6, 9, ... from the right and digits everywhere else |
| AmountFormat.GroupIndianContent | src/components/OnboardingScreen.tsx:21 | removing the commas (or keeping the digits) of a grouped numeral gives the numeral back |
| AmountFormat.CanonicalRoundTrip | src/components/OnboardingScreen.tsx:52 | `ToDigits` inverts the decimal value on canonical numerals |
| AmountFormat.FormatEmptyIffNoDigits | src/components/OnboardingScreen.tsx:49-53 | the field becomes empty iff the input holds no digit |
| AmountFormat.FormatShape | src/components/OnboardingScreen.tsx:49-53 | the field shows an Indian-grouped, canonical numeral of the typed digits' value |
| AmountFormat.FormatParseRoundTrip | src/components/OnboardingScreen.tsx:21 | the formatted field reads back as the value of the typed digits (0 when there are none) |
| AmountFormat.FormatIdempotent | src/components/OnboardingScreen.tsx:80 | formatting a formatted field changes nothing |
| AmountFormat.GroupedCanonicalIsFixed | src/components/OnboardingScreen.tsx:49-53 | a grouped canonical numeral is its own formatting |
| AmountFormat.ValidIffAtLeastThousand | src/components/OnboardingScreen.tsx:22 | a formatted field is valid iff the typed digits denote at least 1000 |
| AmountFormat.ThousandIffFourDigits | src/components/OnboardingScreen.tsx:22 | a canonical numeral denotes at least 1000 iff it has four or more digits |
| AmountFormat.FormattedValidIffComma | src/components/OnboardingScreen.tsx:22 | a field holding its own formatting is valid iff it shows a comma |
| Onboarding.HorizonCaption | src/components/OnboardingScreen.tsx:171 | the horizon caption exists iff the holding is an option value, and then it is that option's label |
| Onboarding.Suggestions | src/components/OnboardingScreen.tsx:24-47 | four suggestions; the fourth is "Focus on F&O" iff the holding is intraday |
| Onboarding.StepDot | src/components/OnboardingScreen.tsx:196-201 | the step dot is current, done or pending as the step equals, passes or precedes it |
| Onboarding.Wizard.constructor | src/components/OnboardingScreen.tsx:17-19 | the wizard starts on step 1 with empty amount and holding, satisfying its invariant |
| Onboarding.Wizard.TypeAmount | src/components/OnboardingScreen.tsx:77-80 | on step 1 the field becomes `formatAmount` of the input; the invariant is kept |
| Onboarding.Wizard.ChooseQuickAmount | src/components/OnboardingScreen.tsx:87-90 | on step 1 a preset button sets the field to the preset; the invariant is kept |
| Onboarding.Wizard.ContinueFromAmount | src/components/OnboardingScreen.tsx:101-103 | step 1 advances to step 2 only with a valid amount |
| Onboarding.Wizard.ChooseHolding | src/components/OnboardingScreen.tsx:123-126 | on step 2 a holding button sets the holding to that option's value |
| Onboarding.Wizard.Back | src/components/OnboardingScreen.tsx:144-145 | Back returns from step 2 to step 1, keeping amount and holding |
| Onboarding.Wizard.ContinueFromHolding | src/components/OnboardingScreen.tsx:150-152 | step 2 advances to step 3 only once a holding is chosen |
| Onboarding.Wizard.Start | src/components/OnboardingScreen.tsx:185-186 | a payload exists iff on step 3; it carries the parsed amount (at least 1000) and an offered holding |
| Onboarding.PresetsAreFormatted | src/components/OnboardingScreen.tsx:87 | every preset is already formatted and meets the minimum |
| Onboarding.HintIffNoComma | src/components/OnboardingScreen.tsx:108-110 | the minimum hint shows iff the formatted field is non-empty and has no comma |
| Onboarding.TypingBelowMinimum | src/components/OnboardingScreen.tsx:108-110 | typing 999 keeps "999", Continue is disabled and the hint shows |
| Onboarding.TypingTheMinimum | src/components/OnboardingScreen.tsx:80 | typing 1000 shows "1,000" |
| Onboarding.MinimumReadsBack | src/components/OnboardingScreen.tsx:21-22 | "1,000" reads back as 1000 and is valid |
| Onboarding.TypingLetters | src/components/OnboardingScreen.tsx:49-51 | typing letters leaves the field empty; no hint, Continue disabled |
| Zones.IqrTone | src/components/StockAlertCard.tsx:80 | the IQR tile is buy-coloured iff z < -2, sell-coloured iff z > 2, neutral otherwise |
| Zones.NnTone | src/components/StockAlertCard.tsx:86 | the NN tile is buy iff p > long threshold, sell iff p ≤ long and p < short, hold otherwise |
| Zones.NnZonesPartition | src/components/StrategyCorner.tsx:76 | with short ≤ long threshold, the sell zone is exactly p < short |
| Zones.NnInvertedThresholdsPreferBuy | src/components/StockAlertCard.tsx:86 | with inverted thresholds a probability between them is shown as buy |
| AlertCard.SignalConfig | src/components/StockAlertCard.tsx:17-23 | the badge caption is the signal's own literal |
| AlertCard.StrategyLabel | src/components/StockAlertCard.tsx:8-14 | the strategy tag equals the caption of that strategy in the strategy table |
| AlertCard.BadgeClassNamesSignal | src/components/StockAlertCard.tsx:17-21 | the badge classes are named after the lower-cased signal |
| AlertCard.TagAgreesWithTable | src/components/StockAlertCard.tsx:39 | the tag shown repeats the strategy table entry of the alert's strategy |
| AlertCard.QuantityVerb | src/components/StockAlertCard.tsx:70 | the quantity panel says "buy" or "sell" |
| AlertCard.ChangePrefix | src/components/StockAlertCard.tsx:25 | the change gets "+" iff it is not negative |
| AlertCard.ZScorePrefix | src/components/StockAlertCard.tsx:81 | the z-score gets "+" iff it is strictly positive |
| AlertCard.ZeroSignsDiffer | src/components/StockAlertCard.tsx:55 | a zero change prints "+", a zero z-score does not |
| AlertCard.CardTiles | src/components/StockAlertCard.tsx:78-95 | IQR tile buy iff z < -2, sell iff z > 2, neutral otherwise; NN tile buy iff p > long, sell iff p ≤ long and p < short, hold iff short ≤ p ≤ long; ensemble highlighted iff confidence > 65% |
| AlertCard.NnTileShowsSignal | src/components/StockAlertCard.tsx:86 | an alert whose probability agrees with its signal has its NN tile in that signal's colour |
| AlertCard.FixtureNnTilesMatchSignals | src/components/StockAlertCard.tsx:86 | on every fixture card the NN tile has the signal's colour |
| AlertCard.FixtureIqrTilesNeverContradict | src/components/StockAlertCard.tsx:80 | on every fixture card the IQR tile is neutral or the signal's colour |
| AlertCard.FixtureMlTilesMatchSignals | src/components/StockAlertCard.tsx:92 | on every fixture card the ensemble tile is highlighted iff the signal is not HOLD |
| AlertCard.FixtureQuantityIffReturn | src/components/StockAlertCard.tsx:58-67 | on every fixture card the quantity panel and the return badge appear together |
| StrategyCorner.OverallSignal | src/components/StrategyCorner.tsx:20 | BUY iff NN long and z < -1.5; SELL iff NN short and z > 1.5 (the two never overlap); HOLD otherwise |
| StrategyCorner.TransactionCost | src/components/StrategyCorner.tsx:21 | the cost is two sides at 2 basis points each, non-negative and at most the capital |
| StrategyCorner.CostMonotone | src/components/StrategyCorner.tsx:21 | a larger capital never costs less |
| StrategyCorner.DefaultCapitalCost | src/components/StrategyCorner.tsx:21 | the default capital of 1,00,000 costs 40 |
| StrategyCorner.CornerShowsBuy | src/components/StrategyCorner.tsx:9-20 | the hard-coded readings give a neutral IQR tile, a buy NN tile, a highlighted ensemble and BUY |
| StrategyCorner.HybridAgreesWithNetwork | src/components/StrategyCorner.tsx:20 | with ordered thresholds a non-HOLD hybrid signal equals the NN tile |
| StrategyCorner.HybridNeverOpposesIqr | src/components/StrategyCorner.tsx:20 | an IQR buy is never a hybrid sell, nor the reverse |
| StrategyCorner.HybridNeedsZScore | src/components/StrategyCorner.tsx:20 | a z-score within ±1.5 always gives HOLD |
| StrategyCorner.FixtureHybridAlertsFollowRule | src/components/StrategyCorner.tsx:20 | the fixture alerts credited to HYBRID carry the signal the rule gives |
| StrategyCorner.FixtureRuleMatchesAllButInfosys | src/components/StrategyCorner.tsx:20 | the rule reproduces every fixture signal except INFY's (z = -1.5 gives HOLD, not BUY) |
| Dashboard.Page.constructor | src/pages/Index.tsx:18-26 | the page starts un-onboarded with ₹1,00,000, "short", the stocks tab, all strategies and no filters |
| Dashboard.Page.HandleOnboardingComplete | src/pages/Index.tsx:28-32 | stores amount and holding, marks onboarded, changes nothing else |
| Dashboard.Page.FinishOnboarding | src/components/OnboardingScreen.tsx:186 | a finished wizard leaves the page onboarded with the capital the amount field reads back as (at least 1000) and the holding chosen, one of those offered |
| Dashboard.Page.ToggleStrategy | src/pages/Index.tsx:34-38 | the selection becomes the toggle of the old one and stays duplicate-free |
| Dashboard.Page.SetSearch | src/pages/Index.tsx:104 | sets the search and nothing else |
| Dashboard.Page.SetSignalFilter | src/pages/Index.tsx:106 | sets the signal filter and nothing else |
| Dashboard.Page.SetSectorFilter | src/pages/Index.tsx:84 | sets the sector filter and nothing else |
| Dashboard.Page.SetActiveTab | src/pages/Index.tsx:71 | sets the active tab and nothing else |
| Dashboard.Page.CurrentScreen | src/pages/Index.tsx:65-67 | the wizard is shown iff not onboarded, otherwise the active tab |
| Dashboard.Page.FilteredStocks | src/pages/Index.tsx:40-48 | the stocks view is the order-preserving selection of exactly the admitted fixture alerts |
| Dashboard.Page.FilteredFnO | src/pages/Index.tsx:50-56 | the F&O view is the order-preserving selection of exactly the admitted contracts |
| Dashboard.Page.FilteredIPOs | src/pages/Index.tsx:58-63 | the IPO view is the order-preserving selection of exactly the matching listings |
| Dashboard.Page.Stats | src/pages/Index.tsx:80 | the counts of the shown alerts add up to their number; the mean is NaN iff "no alerts match" |
| Dashboard.Page.CornerCost | src/pages/Index.tsx:75 | the corner's cost is that of the stored (non-negative) capital, within 0 and the capital |
| Dashboard.StocksView | src/pages/Index.tsx:40-48 | for any collection the stocks view keeps exactly the admitted alerts, in order |
| Dashboard.InitialViewShowsEverything | src/pages/Index.tsx:18-26 | the initial state shows all twelve alerts and the stats 7, 4, 1, 85 |
| Dashboard.SignalFilterCount | src/pages/Index.tsx:43 | choosing one signal shows as many alerts as carry it, and the stats count only that signal |
| Dashboard.BuyFilterShowsSeven | src/pages/Index.tsx:43 | choosing BUY shows seven alerts, all buys: stats 7, 0, 0 |
| Dashboard.DeselectedStrategyHidden | src/pages/Index.tsx:34-42 | after deselecting a strategy none of its alerts is shown |
| Dashboard.ToggleTwiceSameView | src/pages/Index.tsx:34-42 | toggling a strategy twice shows the same alerts as before |

## Left out

- JSX layout, CSS classes other than the signal badge's, icons and emoji, animations: presentation only.
- StockHeader, SearchBar, SignalFilter, SectorFilter and StrategySelector are presentational children. Their `onChange`/`onToggle` calls become the `Dashboard.Page` setters.
- FnOCard and IPOCard are not part of this model.
- The IPO status buttons (`ALL`, `UPCOMING`, ...) have no click handler and filter nothing, so they are not modelled.
- `toLocaleString("en-IN")` of prices and `toFixed` rendering of decimals: display formatting of floating-point values.
- Floating point: decimals are exact reals, so rounding of binary fractions (e.g. `0.0004 * amount`) is not modelled.
- AmountFormat.NumberOfDigits: models `Number` only for digit strings and "". Other strings (whitespace, signs, decimals, exponents, hexadecimal) give `None`; the wizard invariant shows the field never holds them.
- AmountFormat.FormatAmount: reads every digit string exactly, whatever its length. In the source, `Number` rounds values above 2^53 to the nearest double, so the field can show other digits than those typed. Values above the largest double (about 309 digits or more) become Infinity and the field shows "∞".
- AmountFormat.ValidIffAtLeastThousand: in the source, a field showing "∞" reads back as NaN, so it is invalid and the minimum hint shows. The model instead shows a grouped numeral and calls it valid. The wizard invariant (the field is its own formatting) would not hold there either.
- Text.Lower: lower-cases ASCII letters only, not full Unicode case mapping.
- The `holding` prop passed to StrategyCorner is never read by it, so the corner depends only on the capital.
- The confidence bar's width (`${alert.confidence}%`) is presentation only.
- React scheduling (batched `setState`, `useMemo` caching) is not modelled: the views are pure functions of the state.
