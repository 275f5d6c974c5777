/**
  The strategy's pure rules: the RSI crossing signals, position sizing and the
  take-profit / stop-loss levels, all over exact `real` arithmetic.
 */
module Strategy {
  import opened Base

  /** One closed candle as the decision sees it: its close price and its RSI value.
      `None` stands for the NaN the indicator library leaves in its warm-up window;
      every comparison with it is false, as with a Python float NaN. */
  datatype Candle = Candle(close: real, rsi: Option<real>)

  /** Mirror image of a candle's RSI value, used to relate the two crossings. */
  function Negated(c: Candle): Candle
  {
    match c.rsi
    case None => c
    case Some(v) => c.(rsi := Some(-v))
  }

  // ---------------------------------------------------------------------------
  // Signals
  // ---------------------------------------------------------------------------

  /** Long entry: the RSI crosses the threshold upwards between the previous and the
      current closed candle (`previous <= threshold < current`). */
  predicate LongEntry(cur: Candle, prev: Candle, threshold: real)
  {
    cur.rsi.Some? && prev.rsi.Some? && prev.rsi.value <= threshold < cur.rsi.value
  }

  /** Long exit: the mirror downward crossing (`previous >= threshold > current`). */
  predicate LongExit(cur: Candle, prev: Candle, threshold: real)
  {
    cur.rsi.Some? && prev.rsi.Some? && prev.rsi.value >= threshold > cur.rsi.value
  }

  /** A current value sitting exactly on the threshold fires neither signal. */
  lemma OnThresholdNeverFires(cur: Candle, prev: Candle, threshold: real)
    requires cur.rsi == Some(threshold)
    ensures !LongEntry(cur, prev, threshold)
    ensures !LongExit(cur, prev, threshold)
  {
  }

  /** Entry and exit are never both true for the same pair of candles. */
  lemma EntryExitExclusive(cur: Candle, prev: Candle, threshold: real)
    ensures !(LongEntry(cur, prev, threshold) && LongExit(cur, prev, threshold))
  {
  }

  /** Inside the warm-up window (an undefined RSI on either candle) no signal fires. */
  lemma WarmUpNeverFires(cur: Candle, prev: Candle, threshold: real)
    requires cur.rsi.None? || prev.rsi.None?
    ensures !LongEntry(cur, prev, threshold)
    ensures !LongExit(cur, prev, threshold)
  {
  }

  /** The exit is exactly the entry of the mirrored series against the mirrored threshold. */
  lemma ExitMirrorsEntry(cur: Candle, prev: Candle, threshold: real)
    ensures LongExit(cur, prev, threshold) <==> LongEntry(Negated(cur), Negated(prev), -threshold)
  {
  }

  /** Over three consecutive candles a signal cannot fire twice in a row: after an upward
      crossing the RSI is already above the threshold. */
  lemma NoRepeatedSignal(c2: Candle, c1: Candle, c0: Candle, threshold: real)
    ensures LongEntry(c1, c0, threshold) ==> !LongEntry(c2, c1, threshold)
    ensures LongExit(c1, c0, threshold) ==> !LongExit(c2, c1, threshold)
  {
  }

  // ---------------------------------------------------------------------------
  // Sizing and protective levels
  // ---------------------------------------------------------------------------

  /** The notional to commit: `position_size_pct` percent of the balance. */
  function Notional(balance: real, pct: real): (r: real)
    ensures r * 100.0 == balance * pct
  {
    balance * pct / 100.0
  }

  /** The order amount: the notional divided by the current candle's close. A zero close
      gives no finite amount (`None`): the quotient is an infinity or a NaN. */
  function EntryAmount(balance: real, pct: real, close: real): (r: Option<real>)
    ensures r.Some? <==> close != 0.0
    ensures r.Some? ==> r.value * close == Notional(balance, pct)
  {
    if close == 0.0 then None else Some(Notional(balance, pct) / close)
  }

  /** The amount is `balance * position_size_pct / 100 / close` whenever the close is not zero. */
  lemma EntryAmountFormula(balance: real, pct: real, close: real)
    requires close != 0.0
    ensures EntryAmount(balance, pct, close) == Some(balance * pct / 100.0 / close)
  {
  }

  /** A positive balance, percentage and price always give a positive amount. */
  lemma EntryAmountPositive(balance: real, pct: real, close: real)
    requires balance > 0.0 && pct > 0.0 && close > 0.0
    ensures EntryAmount(balance, pct, close).Some?
    ensures EntryAmount(balance, pct, close).value > 0.0
  {
    var n := Notional(balance, pct);
    assert n > 0.0 by {
      assert balance * pct > 0.0;
    }
  }

  /** Long take-profit level: `tp_pct` percent above the entry price. */
  function LongTakeProfit(price: real, tpPct: real): (r: real)
    ensures r - price == price * tpPct / 100.0
  {
    price * (1.0 + tpPct / 100.0)
  }

  /** Long stop-loss level: `sl_pct` percent below the entry price. */
  function LongStopLoss(price: real, slPct: real): (r: real)
    ensures price - r == price * slPct / 100.0
  {
    price * (1.0 - slPct / 100.0)
  }

  /** With a positive price, a positive take-profit percentage and a stop-loss percentage
      strictly between 0 and 100, the stop loss lies below the price and the take profit
      above it, and the stop loss stays positive. */
  lemma LevelsBracketPrice(price: real, tpPct: real, slPct: real)
    requires price > 0.0 && tpPct > 0.0 && 0.0 < slPct < 100.0
    ensures 0.0 < LongStopLoss(price, slPct) < price < LongTakeProfit(price, tpPct)
  {
    assert price * tpPct > 0.0;
    assert price * slPct > 0.0;
    assert price * slPct < price * 100.0;
  }

  /** Worked figures for the sizing and the levels, computed exactly. */
  lemma SizingExamples()
    ensures EntryAmount(1000.0, 5.0, 2000.0) == Some(0.025)
    ensures EntryAmount(10000.0, 5.0, 2000.0) == Some(0.25)
    ensures Notional(10000.0, 5.0) == 500.0
    ensures LongTakeProfit(2000.0, 10.0) == 2200.0
    ensures LongStopLoss(2000.0, 5.0) == 1900.0
  {
  }

  // ---------------------------------------------------------------------------
  // Short side
  // ---------------------------------------------------------------------------

  /** The short-side rules. In the program they are unimplemented stubs; the model keeps
      them as parameters so that no threshold is invented for them. */
  datatype ShortRules = ShortRules(
    entry: (Candle, Candle) -> bool,
    exit: (Candle, Candle) -> bool,
    takeProfit: real -> Option<real>,
    stopLoss: real -> Option<real>)

  /** The stubs as written: each returns `None`, which the caller reads as false or as
      "no level". */
  function Stubs(): (s: ShortRules)
    ensures forall cur: Candle, prev: Candle :: !s.entry(cur, prev) && !s.exit(cur, prev)
    ensures forall price: real :: s.takeProfit(price).None? && s.stopLoss(price).None?
  {
    ShortRules((cur: Candle, prev: Candle) => false, (cur: Candle, prev: Candle) => false,
               (price: real) => None, (price: real) => None)
  }
}
