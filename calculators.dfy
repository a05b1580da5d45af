/** The stand-alone calculators (components/Calculators.tsx): Forex pips and
    profit, and options profit/loss. Neither reads the trade list. */
module Calculators {
  import opened Types
  import TradeLog

  /** `sub` occurs somewhere in `s`, like `s.includes(sub)`. */
  predicate Contains(s: string, sub: string)
    decreases |s|
  {
    sub <= s || (s != [] && Contains(s[1..], sub))
  }

  /** An occurrence of sub starting at position k makes Contains true. */
  lemma {:induction false} ContainsFrom(s: string, sub: string, k: nat)
    requires k <= |s| && sub <= s[k..]
    ensures Contains(s, sub)
    decreases k
  {
    if k == 0 {
      assert s[0..] == s;
    } else {
      assert s[1..][k - 1..] == s[k..];
      ContainsFrom(s[1..], sub, k - 1);
    }
  }

  /** `pair.includes('JPY')`. */
  predicate IsJpy(pair: string)
  {
    Contains(pair, "JPY")
  }

  /** Pips per unit of price: 100 for a yen pair, 10000 otherwise. */
  function PipMultiplier(pair: string): real
  {
    if IsJpy(pair) then 100.0 else 10000.0
  }

  /** Dollars per pip for one lot: 9 for a yen pair, 10 otherwise. */
  function PipValue(pair: string): real
  {
    if IsJpy(pair) then 9.0 else 10.0
  }

  /** The pairs the selector offers get the constants their names call for:
      only USDJPY counts as a yen pair; gold (XAUUSD) uses the standard ones. */
  lemma OfferedPairs()
    ensures IsJpy("USDJPY")
    ensures !IsJpy("EURUSD") && !IsJpy("GBPUSD") && !IsJpy("XAUUSD")
    ensures PipMultiplier("USDJPY") == 100.0 && PipValue("USDJPY") == 9.0
    ensures PipMultiplier("XAUUSD") == 10000.0 && PipValue("XAUUSD") == 10.0
  {
    ContainsFrom("USDJPY", "JPY", 3);
    NoJ("EURUSD");
    NoJ("GBPUSD");
    NoJ("XAUUSD");
  }

  /** A string without the letter J does not contain "JPY". */
  lemma {:induction false} NoJ(s: string)
    requires forall i :: 0 <= i < |s| ==> s[i] != 'J'
    ensures !Contains(s, "JPY")
    decreases |s|
  {
    if s != [] {
      assert "JPY"[0] == 'J';
      NoJ(s[1..]);
    }
  }

  /** What the pips calculator shows. */
  datatype PipsResult = PipsResult(pips: real, profit: real)

  /** `calculatePips`: nothing until both prices have been entered; then the
      price move in pips and its dollar value for the lot size. */
  function CalculatePips(pair: string, entry: NumInput, exit: NumInput, lotSize: real): (r: PipsResult)
    ensures entry.Blank? || exit.Blank? ==> r == PipsResult(0.0, 0.0)
    ensures entry.Number? && exit.Number? ==>
      && r.pips == (exit.value - entry.value) * PipMultiplier(pair)
      && r.profit == r.pips * lotSize * PipValue(pair)
  {
    if entry.Blank? || exit.Blank? then PipsResult(0.0, 0.0)
    else
      var multiplier := PipMultiplier(pair);
      var pips := (exit.value - entry.value) * multiplier;
      PipsResult(pips, pips * lotSize * PipValue(pair))
  }

  /** There is no direction input: the pips have the sign of exit − entry, and
      for a positive lot size so does the profit. */
  lemma PipsSign(pair: string, entry: real, exit: real, lotSize: real)
    ensures var r := CalculatePips(pair, Number(entry), Number(exit), lotSize);
      && (r.pips > 0.0 <==> exit > entry)
      && (r.pips < 0.0 <==> exit < entry)
      && (lotSize > 0.0 ==> (r.profit > 0.0 <==> exit > entry) && (r.profit < 0.0 <==> exit < entry))
  {
    var d := exit - entry;
    var m, v := PipMultiplier(pair), PipValue(pair);
    PositiveFactor(d, m);
    if lotSize > 0.0 {
      assert (d * m) * lotSize * v == d * (m * lotSize * v);
      assert m * lotSize * v > 0.0 by {
        assert m * lotSize > 0.0;
      }
      PositiveFactor(d, m * lotSize * v);
    }
  }

  /** For a pair other than the yen pair, the calculator's profit is what the
      journal books for a Long Forex trade of that many lots at those prices. */
  lemma PipsMatchForexTrade(pair: string, entry: real, exit: real, lotSize: real)
    requires !IsJpy(pair)
    ensures CalculatePips(pair, Number(entry), Number(exit), lotSize).profit
         == TradeLog.CalculatePnL(entry, exit, lotSize, Long, Forex)
  {
  }

  /** The option side chosen on the panel. */
  datatype OptionType = Call | Put

  /** Contract size of one US equity option: 100 shares. */
  const SharesPerContract: real := 100.0

  /** `OptionsCalculator.calculate`: 0 until both premiums have been entered,
      then (sell − buy) × 100 × contracts. The option side is on the panel but
      not in the formula. */
  function CalculateOptionsProfit(kind: OptionType, contracts: real, premiumBuy: NumInput, premiumSell: NumInput): (profit: real)
    ensures premiumBuy.Blank? || premiumSell.Blank? ==> profit == 0.0
    ensures premiumBuy.Number? && premiumSell.Number? ==>
      profit == (premiumSell.value - premiumBuy.value) * 100.0 * contracts
  {
    if premiumBuy.Blank? || premiumSell.Blank? then 0.0
    else (premiumSell.value - premiumBuy.value) * SharesPerContract * contracts
  }

  /** Buying and selling options is booked like a Long stock trade of 100
      shares per contract, from the buy premium to the sell premium. */
  lemma OptionsMatchStockTrade(kind: OptionType, contracts: real, premiumBuy: real, premiumSell: real)
    ensures CalculateOptionsProfit(kind, contracts, Number(premiumBuy), Number(premiumSell))
         == TradeLog.CalculatePnL(premiumBuy, premiumSell, contracts * SharesPerContract, Long, Stocks)
  {
  }

  /** Call and Put give the same figure for the same inputs. */
  lemma OptionTypeIgnored(contracts: real, premiumBuy: NumInput, premiumSell: NumInput)
    ensures CalculateOptionsProfit(Call, contracts, premiumBuy, premiumSell)
         == CalculateOptionsProfit(Put, contracts, premiumBuy, premiumSell)
  {
  }

  /** Equal entry and exit prices give zero pips and zero profit. */
  lemma PipsNoMove(pair: string, price: real, lotSize: real)
    ensures CalculatePips(pair, Number(price), Number(price), lotSize) == PipsResult(0.0, 0.0)
  {
  }

  /** Equal premiums give zero. */
  lemma OptionsNoMove(kind: OptionType, contracts: real, premium: real)
    ensures CalculateOptionsProfit(kind, contracts, Number(premium), Number(premium)) == 0.0
  {
  }
}
