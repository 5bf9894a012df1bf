/**
  The investment-amount field of the onboarding wizard: every keystroke keeps
  only the digits and re-renders them with Indian digit grouping
  (`toLocaleString("en-IN")`: the last three digits, then groups of two), and
  the amount is read back by deleting the commas and calling `Number`.
*/
module AmountFormat {
  import opened Wrappers
  import opened Collections

  predicate IsDigit(c: char) { '0' <= c <= '9' }

  predicate AllDigits(s: string) {
    forall i :: 0 <= i < |s| ==> IsDigit(s[i])
  }

  /** No superfluous leading zero: the only numeral starting with `0` is `0` itself. */
  predicate Canonical(ds: string) {
    ds != [] && AllDigits(ds) && (ds[0] == '0' ==> ds == "0")
  }

  function DigitChar(d: nat): (c: char)
    requires d < 10
    ensures IsDigit(c)
  {
    ('0' as int + d) as char
  }

  function DigitValue(c: char): (d: nat)
    requires IsDigit(c)
    ensures d < 10
  {
    c as int - '0' as int
  }

  /** `val.replace(/[^0-9]/g, "")`. */
  function DigitsOnly(s: string): (r: string)
    ensures AllDigits(r)
  {
    Filter(s, IsDigit)
  }

  /** `amount.replace(/,/g, "")`. */
  function StripCommas(s: string): (r: string)
    ensures forall i :: 0 <= i < |r| ==> r[i] != ','
  {
    Filter(s, (c: char) => c != ',')
  }

  /** The number a decimal numeral denotes. */
  function DecimalValue(ds: string): nat
    requires AllDigits(ds)
  {
    if ds == [] then 0 else DecimalValue(ds[..|ds| - 1]) * 10 + DigitValue(ds[|ds| - 1])
  }

  /** The canonical decimal numeral of `n`. */
  function ToDigits(n: nat): (r: string)
    ensures Canonical(r)
    ensures DecimalValue(r) == n
    decreases n
  {
    if n < 10 then [DigitChar(n)]
    else
      var r := ToDigits(n / 10) + [DigitChar(n % 10)];
      assert r[..|r| - 1] == ToDigits(n / 10);
      r
  }

  /** Groups of two digits from the right, separated by commas. */
  function GroupPairs(h: string): string
    decreases |h|
  {
    if |h| <= 2 then h else GroupPairs(h[..|h| - 2]) + "," + h[|h| - 2..]
  }

  /** Indian digit grouping: the last three digits, then groups of two. */
  function GroupIndian(ds: string): string {
    if |ds| <= 3 then ds else GroupPairs(ds[..|ds| - 3]) + "," + ds[|ds| - 3..]
  }

  /**
    `formatAmount(val)`: the digits of `val` as a number, regrouped; the empty
    string when `val` holds no digit.
  */
  function FormatAmount(v: string): string {
    var num := DigitsOnly(v);
    if num == [] then "" else GroupIndian(ToDigits(DecimalValue(num)))
  }

  /**
    `Number(s)` for the strings the amount field can hold: the empty string is
    `0`, a string of digits is its value. Any other string is `None`.
  */
  function NumberOfDigits(s: string): (r: Option<nat>)
    ensures r.Some? <==> AllDigits(s)
  {
    if AllDigits(s) then Some(DecimalValue(s)) else None
  }

  /** `parsedAmount`: the amount field read back as a number. */
  function ParsedAmount(amount: string): Option<nat> {
    NumberOfDigits(StripCommas(amount))
  }

  /** `isValidAmount`: at least one thousand rupees. */
  predicate IsValidAmount(amount: string) {
    var p := ParsedAmount(amount);
    p.Some? && p.value >= 1000
  }

  /**
    The shape of an Indian-grouped numeral: counting from the right end from
    zero, a comma stands exactly at positions 3, 6, 9, ... and every other
    character is a digit.
  */
  predicate IndianGrouped(s: string) {
    forall k :: 0 <= k < |s| ==>
      (s[k] == ',' <==> (|s| - 1 - k >= 3 && (|s| - 1 - k) % 3 == 0)) && (s[k] != ',' ==> IsDigit(s[k]))
  }

  /** The shape of `GroupPairs`: counting from the right from zero, commas at 2, 5, 8, ... */
  lemma {:induction false} GroupPairsShape(h: string)
    requires AllDigits(h)
    ensures var g := GroupPairs(h);
      forall k :: 0 <= k < |g| ==> (g[k] == ',' <==> (|g| - 1 - k) % 3 == 2) && (g[k] != ',' ==> IsDigit(g[k]))
    ensures h != [] ==> GroupPairs(h) != [] && GroupPairs(h)[0] == h[0]
    decreases |h|
  {
    if |h| > 2 {
      var front := h[..|h| - 2];
      GroupPairsShape(front);
      var g, g' := GroupPairs(h), GroupPairs(front);
      assert g == g' + "," + h[|h| - 2..];
      forall k | 0 <= k < |g|
        ensures (g[k] == ',' <==> (|g| - 1 - k) % 3 == 2) && (g[k] != ',' ==> IsDigit(g[k]))
      {
        if k < |g'| {
          assert g[k] == g'[k];
          assert |g| - 1 - k == (|g'| - 1 - k) + 3;
        }
      }
    }
  }

  /** Grouping produces an Indian-grouped numeral that starts with the first digit. */
  lemma GroupIndianShape(ds: string)
    requires AllDigits(ds)
    ensures IndianGrouped(GroupIndian(ds))
    ensures ds != [] ==> GroupIndian(ds) != [] && GroupIndian(ds)[0] == ds[0]
  {
    if |ds| > 3 {
      var front := ds[..|ds| - 3];
      GroupPairsShape(front);
      var s, g := GroupIndian(ds), GroupPairs(front);
      assert s == g + "," + ds[|ds| - 3..];
      forall k | 0 <= k < |s|
        ensures (s[k] == ',' <==> (|s| - 1 - k >= 3 && (|s| - 1 - k) % 3 == 0)) && (s[k] != ',' ==> IsDigit(s[k]))
      {
        if k < |g| {
          assert s[k] == g[k];
          assert |s| - 1 - k == (|g| - 1 - k) + 4;
          ShiftByFour(|g| - 1 - k);
        } else if k == |g| {
          assert s[k] == ',' && |s| - 1 - k == 3;
        } else {
          assert s[k] == ds[|ds| - 3 + (k - |g| - 1)];
          assert |s| - 1 - k < 3;
        }
      }
    } else {
      assert GroupIndian(ds) == ds;
    }
  }

  /** Four places further from the right end, position 2 mod 3 becomes a multiple of 3. */
  lemma ShiftByFour(x: int)
    requires x >= 0
    ensures x % 3 == 2 <==> (x + 4 >= 3 && (x + 4) % 3 == 0)
  {
  }

  /** Removing the grouping from `GroupPairs` gives the digits back. */
  lemma {:induction false} GroupPairsContent(h: string)
    requires AllDigits(h)
    ensures DigitsOnly(GroupPairs(h)) == h
    ensures StripCommas(GroupPairs(h)) == h
    decreases |h|
  {
    var noComma := (c: char) => c != ',';
    if |h| <= 2 {
      FilterKeepsAll(h, IsDigit);
      FilterKeepsAll(h, noComma);
    } else {
      var front, tail := h[..|h| - 2], h[|h| - 2..];
      GroupPairsContent(front);
      FilterAppend(GroupPairs(front) + ",", tail, IsDigit);
      FilterAppend(GroupPairs(front), ",", IsDigit);
      FilterKeepsAll(tail, IsDigit);
      FilterAppend(GroupPairs(front) + ",", tail, noComma);
      FilterAppend(GroupPairs(front), ",", noComma);
      FilterKeepsAll(tail, noComma);
      assert front + tail == h;
    }
  }

  /** Removing the grouping from `GroupIndian` gives the digits back. */
  lemma GroupIndianContent(ds: string)
    requires AllDigits(ds)
    ensures DigitsOnly(GroupIndian(ds)) == ds
    ensures StripCommas(GroupIndian(ds)) == ds
  {
    var noComma := (c: char) => c != ',';
    if |ds| <= 3 {
      FilterKeepsAll(ds, IsDigit);
      FilterKeepsAll(ds, noComma);
    } else {
      var front, tail := ds[..|ds| - 3], ds[|ds| - 3..];
      GroupPairsContent(front);
      FilterAppend(GroupPairs(front) + ",", tail, IsDigit);
      FilterAppend(GroupPairs(front), ",", IsDigit);
      FilterKeepsAll(tail, IsDigit);
      FilterAppend(GroupPairs(front) + ",", tail, noComma);
      FilterAppend(GroupPairs(front), ",", noComma);
      FilterKeepsAll(tail, noComma);
      assert front + tail == ds;
    }
  }

  /** `ToDigits` inverts `DecimalValue` on canonical numerals. */
  lemma {:induction false} CanonicalRoundTrip(ds: string)
    requires Canonical(ds)
    ensures ToDigits(DecimalValue(ds)) == ds
  {
    if |ds| > 1 {
      var front := ds[..|ds| - 1];
      NumeralLowerBound(front);
      CanonicalRoundTrip(front);
      var n := DecimalValue(ds);
      assert n / 10 == DecimalValue(front) && n % 10 == DigitValue(ds[|ds| - 1]);
      assert ds == front + [ds[|ds| - 1]];
    }
  }

  /** The field is empty exactly when what was typed holds no digit. */
  lemma FormatEmptyIffNoDigits(v: string)
    ensures FormatAmount(v) == [] <==> DigitsOnly(v) == []
  {
    if DigitsOnly(v) != [] {
      GroupIndianShape(ToDigits(DecimalValue(DigitsOnly(v))));
    }
  }

  /**
    What the field shows is Indian-grouped, starts with a digit other than a
    superfluous `0`, and holds exactly the canonical digits of the typed value.
  */
  lemma FormatShape(v: string)
    requires DigitsOnly(v) != []
    ensures var s := FormatAmount(v);
      IndianGrouped(s) && s != [] && s[0] != ',' && (s[0] == '0' ==> s == "0")
      && StripCommas(s) == ToDigits(DecimalValue(DigitsOnly(v)))
  {
    var ds := ToDigits(DecimalValue(DigitsOnly(v)));
    GroupIndianShape(ds);
    GroupIndianContent(ds);
    if FormatAmount(v)[0] == '0' {
      assert ds == "0";
    }
  }

  /** Reading the field back yields the value of the digits that were typed (`0` for none). */
  lemma FormatParseRoundTrip(v: string)
    ensures ParsedAmount(FormatAmount(v)) == Some(if DigitsOnly(v) == [] then 0 else DecimalValue(DigitsOnly(v)))
  {
    if DigitsOnly(v) != [] {
      GroupIndianContent(ToDigits(DecimalValue(DigitsOnly(v))));
    } else {
      assert StripCommas("") == "";
    }
  }

  /** Formatting what is already formatted changes nothing, so each keystroke is stable. */
  lemma FormatIdempotent(v: string)
    ensures FormatAmount(FormatAmount(v)) == FormatAmount(v)
  {
    if DigitsOnly(v) != [] {
      var ds := ToDigits(DecimalValue(DigitsOnly(v)));
      GroupIndianContent(ds);
      CanonicalRoundTrip(ds);
    } else {
      assert DigitsOnly("") == "";
    }
  }

  /** A grouped canonical numeral is its own formatting. */
  lemma GroupedCanonicalIsFixed(ds: string)
    requires Canonical(ds)
    ensures FormatAmount(GroupIndian(ds)) == GroupIndian(ds)
  {
    GroupIndianContent(ds);
    CanonicalRoundTrip(ds);
  }

  /** A formatted field passes the minimum exactly when the typed digits denote at least 1000. */
  lemma ValidIffAtLeastThousand(v: string)
    ensures IsValidAmount(FormatAmount(v)) <==> DigitsOnly(v) != [] && DecimalValue(DigitsOnly(v)) >= 1000
  {
    FormatParseRoundTrip(v);
  }

  function Pow10(n: nat): (r: nat)
    ensures r >= 1
  {
    if n == 0 then 1 else 10 * Pow10(n - 1)
  }

  lemma {:induction false} Pow10Monotone(m: nat, n: nat)
    requires m <= n
    ensures Pow10(m) <= Pow10(n)
    decreases n
  {
    if m < n {
      Pow10Monotone(m, n - 1);
    }
  }

  /** A numeral of `k` digits denotes less than `10^k`. */
  lemma {:induction false} NumeralUpperBound(ds: string)
    requires AllDigits(ds)
    ensures DecimalValue(ds) < Pow10(|ds|)
  {
    if ds != [] {
      NumeralUpperBound(ds[..|ds| - 1]);
    }
  }

  /** A numeral of `k` digits whose first digit is not `0` denotes at least `10^(k-1)`. */
  lemma {:induction false} NumeralLowerBound(ds: string)
    requires ds != [] && AllDigits(ds) && ds[0] != '0'
    ensures DecimalValue(ds) >= Pow10(|ds| - 1)
  {
    if |ds| > 1 {
      NumeralLowerBound(ds[..|ds| - 1]);
    }
  }

  /** A canonical numeral denotes at least 1000 exactly when it has four digits or more. */
  lemma ThousandIffFourDigits(ds: string)
    requires Canonical(ds)
    ensures DecimalValue(ds) >= 1000 <==> |ds| >= 4
  {
    if |ds| >= 4 {
      NumeralLowerBound(ds);
      Pow10Monotone(3, |ds| - 1);
    } else {
      NumeralUpperBound(ds);
      Pow10Monotone(|ds|, 3);
    }
  }

  /** A grouped numeral shows a comma exactly when it has more than three digits. */
  lemma CommaIffMoreThanThree(ds: string)
    requires AllDigits(ds)
    ensures ',' in GroupIndian(ds) <==> |ds| > 3
  {
    if |ds| > 3 {
      var g := GroupPairs(ds[..|ds| - 3]);
      assert GroupIndian(ds)[|g|] == ',';
    } else {
      assert forall i :: 0 <= i < |ds| ==> ds[i] != ',';
    }
  }

  /**
    A field that holds its own formatting meets the minimum exactly when it
    shows a comma: the thousands separator appears at the first value allowed.
  */
  lemma FormattedValidIffComma(a: string)
    requires FormatAmount(a) == a
    ensures IsValidAmount(a) <==> ',' in a
  {
    FormatParseRoundTrip(a);
    if DigitsOnly(a) != [] {
      var ds := ToDigits(DecimalValue(DigitsOnly(a)));
      ThousandIffFourDigits(ds);
      CommaIffMoreThanThree(ds);
    }
  }
}
