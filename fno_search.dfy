/**
  The F&O search of the dashboard applied to the contract fixture: matching is
  by case-insensitive substring on the symbol, so "nifty" finds the index
  contracts of both NIFTY and BANKNIFTY.
*/
module FnOSearch {
  import opened StockData
  import opened Text
  import opened Collections
  import opened Filters

  /** The symbols of a list of contracts, in order. */
  function ContractSymbols(fno: seq<FnOContract>): (r: seq<string>)
    ensures |r| == |fno| && forall i :: 0 <= i < |fno| ==> r[i] == fno[i].symbol
  {
    seq(|fno|, i requires 0 <= i < |fno| => fno[i].symbol)
  }

  /** The symbols of the contract fixture. */
  lemma FixtureContractSymbols()
    ensures ContractSymbols(MockFnO) == ["NIFTY", "BANKNIFTY", "RELIANCE", "NIFTY", "TCS", "TATAMOTORS", "HDFCBANK", "BANKNIFTY"]
  {
  }

  /** Contracts whose symbol contains "NIFTY" match a lower-case "nifty" search. */
  lemma NiftyMatches(fno: seq<FnOContract>)
    requires ContractSymbols(fno) == ["NIFTY", "BANKNIFTY", "RELIANCE", "NIFTY", "TCS", "TATAMOTORS", "HDFCBANK", "BANKNIFTY"]
    ensures KeepContract(fno[0], AnySignal, "nifty") && KeepContract(fno[1], AnySignal, "nifty")
    ensures KeepContract(fno[3], AnySignal, "nifty") && KeepContract(fno[7], AnySignal, "nifty")
  {
    assert fno[0].symbol == "NIFTY" && fno[1].symbol == "BANKNIFTY";
    assert fno[3].symbol == "NIFTY" && fno[7].symbol == "BANKNIFTY";
    assert OccursAt(Lower("NIFTY"), Lower("nifty"), 0);
    IncludesIffOccurs(Lower("NIFTY"), Lower("nifty"));
    assert OccursAt(Lower("BANKNIFTY"), Lower("nifty"), 4);
    IncludesIffOccurs(Lower("BANKNIFTY"), Lower("nifty"));
  }

  /** The other symbols lack the letter 'y', so the "nifty" search drops them. */
  lemma NiftyMisses(fno: seq<FnOContract>)
    requires ContractSymbols(fno) == ["NIFTY", "BANKNIFTY", "RELIANCE", "NIFTY", "TCS", "TATAMOTORS", "HDFCBANK", "BANKNIFTY"]
    ensures !KeepContract(fno[2], AnySignal, "nifty") && !KeepContract(fno[4], AnySignal, "nifty")
    ensures !KeepContract(fno[5], AnySignal, "nifty") && !KeepContract(fno[6], AnySignal, "nifty")
  {
    MissedSymbolsLackY();
    MissAt(fno, 2, "RELIANCE");
    MissAt(fno, 4, "TCS");
    MissAt(fno, 5, "TATAMOTORS");
    MissAt(fno, 6, "HDFCBANK");
  }

  /** None of the four symbols the "nifty" search drops holds a 'y'. */
  lemma MissedSymbolsLackY()
    ensures LacksY("RELIANCE") && LacksY("TCS") && LacksY("TATAMOTORS") && LacksY("HDFCBANK")
  {
  }

  /** The contract at `k`, whose symbol is `symbol`, is dropped by the "nifty" search when `symbol` lacks 'y'. */
  lemma MissAt(fno: seq<FnOContract>, k: nat, symbol: string)
    requires k < |fno| && ContractSymbols(fno)[k] == symbol && LacksY(symbol)
    ensures !KeepContract(fno[k], AnySignal, "nifty")
  {
    SymbolWithoutY(fno[k], symbol);
  }

  /** `s` holds no letter y in either case. */
  predicate LacksY(s: string) {
    'y' !in s && 'Y' !in s
  }

  /** A contract whose symbol has no 'y' in either case cannot match "nifty". */
  lemma SymbolWithoutY(c: FnOContract, symbol: string)
    requires c.symbol == symbol && LacksY(symbol)
    ensures !KeepContract(c, AnySignal, "nifty")
  {
    assert Lower("nifty")[4] == 'y';
    LacksYLowered(symbol);
    AbsentCharExcludes(Lower(symbol), Lower("nifty"), 'y');
  }

  /** Lower-casing a string without 'y' or 'Y' yields no 'y'. */
  lemma LacksYLowered(s: string)
    requires LacksY(s)
    ensures 'y' !in Lower(s)
  {
    forall i | 0 <= i < |Lower(s)|
      ensures Lower(s)[i] != 'y'
    {
      assert s[i] != 'y' && s[i] != 'Y';
    }
  }

  /**
    Searching the contracts for "nifty" keeps f1, f2, f4 and f8: matching is by
    substring, so "BANKNIFTY" matches as well as "NIFTY".
  */
  lemma NiftySearchIsSubstringMatch()
    ensures FilterFnO(MockFnO, AnySignal, "nifty") == [MockFnO[0], MockFnO[1], MockFnO[3], MockFnO[7]]
  {
    FixtureContractSymbols();
    NiftyMatches(MockFnO);
    NiftyMisses(MockFnO);
    FilterOfEight(MockFnO, c => KeepContract(c, AnySignal, "nifty"));
  }

  /** The filter of an eight-element sequence under the acceptance pattern of the "nifty" search. */
  lemma FilterOfEight<T>(f: seq<T>, p: T -> bool)
    requires |f| == 8
    requires p(f[0]) && p(f[1]) && !p(f[2]) && p(f[3]) && !p(f[4]) && !p(f[5]) && !p(f[6]) && p(f[7])
    ensures Filter(f, p) == [f[0], f[1], f[3], f[7]]
  {
    FilterStep(f, p, 7);
    assert f[8..] == [];
    FilterStep(f, p, 6);
    FilterStep(f, p, 5);
    FilterStep(f, p, 4);
    FilterStep(f, p, 3);
    FilterStep(f, p, 2);
    FilterStep(f, p, 1);
    assert Filter(f, p) == [f[0]] + Filter(f[1..], p);
  }

  /** One unfolding of the filter at position `k`. */
  lemma FilterStep<T>(f: seq<T>, p: T -> bool, k: nat)
    requires k < |f|
    ensures Filter(f[k..], p) == (if p(f[k]) then [f[k]] else []) + Filter(f[k + 1..], p)
  {
    assert f[k..][1..] == f[k + 1..];
  }
}
