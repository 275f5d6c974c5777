/**
  One live decision cycle: select the current and previous closed candles, read the
  position, decide between holding, exiting and (after configuring the account)
  entering, expand the decision into ordered gateway calls, and run them against an
  exchange that may raise on any call.
 */
module Bot {
  import opened Base
  import opened Strategy
  import opened Client

  /** The strategy parameters and the ignore-flags, fixed for a run. */
  datatype Config = Config(
    positionSizePct: real,
    leverage: int,
    marginMode: MarginMode,
    rsiOverbought: real,
    tpPct: real,
    slPct: real,
    ignoreLongs: bool,
    ignoreShorts: bool,
    ignoreExit: bool,
    ignoreTp: bool,
    ignoreSl: bool)

  /** The program's own settings: 5% of the balance per trade at leverage 1 in isolated
      margin, an RSI threshold of 70, a 10% take profit and a 5% stop loss, trading longs
      only, with exits and both protective orders switched on. */
  function Defaults(): (c: Config)
    ensures c.positionSizePct == 5.0 && c.leverage == 1 && c.marginMode == Isolated
    ensures c.rsiOverbought == 70.0 && c.tpPct == 10.0 && c.slPct == 5.0
    ensures !c.ignoreLongs && c.ignoreShorts
    ensures !c.ignoreExit && !c.ignoreTp && !c.ignoreSl
  {
    Config(5.0, 1, Isolated, 70.0, 10.0, 5.0, false, true, false, false, false)
  }

  /** What the cycle reads from the exchange before it decides: the USDC balance, the
      candles oldest first, the raw position list and the market's mid price. */
  datatype Snapshot = Snapshot(
    balance: real,
    candles: seq<Candle>,
    positions: seq<Position>,
    midPrice: real)

  /** The candle that closed last (index -2; index -1 is still forming): exactly one
      candle follows it. */
  function CurrentCandle(candles: seq<Candle>): (c: Candle)
    requires |candles| >= 3
    ensures candles == candles[..|candles| - 2] + [c] + candles[|candles| - 1..]
  {
    candles[|candles| - 2]
  }

  /** The candle before it (index -3): the last three candles are the previous one, the
      current one and the forming one. */
  function PreviousCandle(candles: seq<Candle>): (c: Candle)
    requires |candles| >= 3
    ensures candles[|candles| - 3..] == [c, CurrentCandle(candles), candles[|candles| - 1]]
  {
    candles[|candles| - 3]
  }

  // ---------------------------------------------------------------------------
  // Position side
  // ---------------------------------------------------------------------------

  function LowerChar(c: char): char
  {
    if 'A' <= c <= 'Z' then (c as int + 32) as char else c
  }

  /** `str.lower()` on the ASCII letters a side string is made of: the same length, each
      capital letter replaced by its small letter, and every other character unchanged. */
  function Lower(s: string): (r: string)
    ensures |r| == |s|
    ensures forall i :: 0 <= i < |s| && 'A' <= s[i] <= 'Z' ==> r[i] as int == s[i] as int + 32
    ensures forall i :: 0 <= i < |r| ==> !('A' <= r[i] <= 'Z')
    ensures forall i :: 0 <= i < |r| && !('A' <= s[i] <= 'Z') ==> r[i] == s[i]
  {
    seq(|s|, i requires 0 <= i < |s| => LowerChar(s[i]))
  }

  datatype Held = HeldLong | HeldShort | HeldOther

  /** The side of a held position, read case-insensitively from the exchange's string. */
  function HeldSide(p: Position): (h: Held)
    ensures h == HeldLong <==> Lower(p.side) == "long"
    ensures h == HeldShort <==> Lower(p.side) == "short"
    ensures h == HeldOther <==> Lower(p.side) != "long" && Lower(p.side) != "short"
  {
    var s := Lower(p.side);
    if s == "long" then HeldLong else if s == "short" then HeldShort else HeldOther
  }

  /** Two side strings that differ only in the case of their letters. */
  ghost predicate SameIgnoringCase(a: string, b: string)
  {
    |a| == |b| && forall i :: 0 <= i < |a| ==> LowerChar(a[i]) == LowerChar(b[i])
  }

  /** The side string is read whatever its capitalisation: positions whose side strings
      differ only in case are held on the same side. */
  lemma HeldSideCaseInsensitive(p: Position, q: Position)
    requires SameIgnoringCase(p.side, q.side)
    ensures HeldSide(p) == HeldSide(q)
  {
    assert Lower(p.side) == Lower(q.side) by {
      forall i | 0 <= i < |p.side|
        ensures Lower(p.side)[i] == Lower(q.side)[i]
      {
        assert Lower(p.side)[i] == LowerChar(p.side[i]);
        assert Lower(q.side)[i] == LowerChar(q.side[i]);
      }
    }
  }

  /** Some spellings of the side string and how they are read. */
  lemma HeldSideIgnoresCase(contracts: real)
    ensures HeldSide(Position("long", contracts)) == HeldLong
    ensures HeldSide(Position("Long", contracts)) == HeldLong
    ensures HeldSide(Position("LONG", contracts)) == HeldLong
    ensures HeldSide(Position("short", contracts)) == HeldShort
    ensures HeldSide(Position("SHORT", contracts)) == HeldShort
    ensures HeldSide(Position("both", contracts)) == HeldOther
  {
    assert Lower("Long") == "long";
    assert Lower("LONG") == "long";
    assert Lower("SHORT") == "short";
    assert Lower("both") == "both";
  }

  // ---------------------------------------------------------------------------
  // Decision
  // ---------------------------------------------------------------------------

  /** The outcome of the decision stage. `Prepare` is the flat branch: leverage and margin
      mode are set whatever happens next, then at most one entry order follows. */
  datatype Decision =
    | Hold
    | Exit(order: OrderRequest)
    | Prepare(entry: Option<OrderRequest>)

  /** A reduce-only close of the whole held position on `side`, with no attached levels. */
  function CloseRequest(side: Side, p: Position): (r: OrderRequest)
    ensures r.side == side && r.reduceOnly
    ensures r.takeProfit.None? && r.stopLoss.None?
    ensures r.amount.Some? && r.amount.value >= 0.0
    ensures r.amount.value == p.contracts || r.amount.value == -p.contracts
    ensures p.contracts != 0.0 ==> r.amount.value > 0.0
  {
    OrderRequest(side, Some(Abs(p.contracts)), true, None, None)
  }

  /** An opening order: the configured share of the balance, converted to an amount at
      the current close, with the levels the flags leave switched on. */
  function EntryRequest(side: Side, cfg: Config, balance: real, close: real,
                        takeProfit: Option<real>, stopLoss: Option<real>): (r: OrderRequest)
    ensures r.side == side && !r.reduceOnly
    ensures r.amount.Some? <==> close != 0.0
    ensures r.amount.Some? ==> r.amount.value * close == Notional(balance, cfg.positionSizePct)
    ensures r.takeProfit == (if cfg.ignoreTp then None else takeProfit)
    ensures r.stopLoss == (if cfg.ignoreSl then None else stopLoss)
  {
    OrderRequest(side, EntryAmount(balance, cfg.positionSizePct, close), false,
                 if cfg.ignoreTp then None else takeProfit,
                 if cfg.ignoreSl then None else stopLoss)
  }

  /** The decision branches of the main block. With a position, only an exit on the
      position's own side can fire, and only when that side and exits are enabled. When
      flat, the long entry is tested first and the short entry only otherwise. */
  function Decide(cfg: Config, short: ShortRules, balance: real, cur: Candle, prev: Candle,
                  position: Option<Position>): (d: Decision)
    ensures d.Prepare? <==> position.None?
    ensures d.Exit? ==> d.order == CloseRequest(d.order.side, position.value)
    ensures d.Exit? && d.order.side == Sell <==>
      position.Some? && HeldSide(position.value) == HeldLong && !cfg.ignoreLongs && !cfg.ignoreExit
      && LongExit(cur, prev, cfg.rsiOverbought)
    ensures d.Exit? && d.order.side == Buy <==>
      position.Some? && HeldSide(position.value) == HeldShort && !cfg.ignoreShorts && !cfg.ignoreExit
      && short.exit(cur, prev)
    ensures d.Prepare? && d.entry.Some? ==> !d.entry.value.reduceOnly
    ensures d.Prepare? && d.entry.Some? && d.entry.value.side == Buy <==>
      position.None? && !cfg.ignoreLongs && LongEntry(cur, prev, cfg.rsiOverbought)
    ensures d.Prepare? && d.entry.Some? && d.entry.value.side == Sell <==>
      position.None? && !(!cfg.ignoreLongs && LongEntry(cur, prev, cfg.rsiOverbought))
      && !cfg.ignoreShorts && short.entry(cur, prev)
    ensures d.Prepare? && d.entry.Some? ==>
      d.entry.value.amount == EntryAmount(balance, cfg.positionSizePct, cur.close)
    ensures d.Prepare? && d.entry.Some? ==>
      d.entry.value.takeProfit == (if cfg.ignoreTp then None
                                   else if d.entry.value.side == Buy then Some(LongTakeProfit(cur.close, cfg.tpPct))
                                   else short.takeProfit(cur.close))
    ensures d.Prepare? && d.entry.Some? ==>
      d.entry.value.stopLoss == (if cfg.ignoreSl then None
                                 else if d.entry.value.side == Buy then Some(LongStopLoss(cur.close, cfg.slPct))
                                 else short.stopLoss(cur.close))
  {
    match position
    case Some(p) =>
      var held := HeldSide(p);
      if held == HeldLong && !cfg.ignoreLongs && !cfg.ignoreExit then
        if LongExit(cur, prev, cfg.rsiOverbought) then Exit(CloseRequest(Sell, p)) else Hold
      else if held == HeldShort && !cfg.ignoreShorts && !cfg.ignoreExit then
        if short.exit(cur, prev) then Exit(CloseRequest(Buy, p)) else Hold
      else
        Hold
    case None =>
      if !cfg.ignoreLongs && LongEntry(cur, prev, cfg.rsiOverbought) then
        Prepare(Some(EntryRequest(Buy, cfg, balance, cur.close,
                                  Some(LongTakeProfit(cur.close, cfg.tpPct)),
                                  Some(LongStopLoss(cur.close, cfg.slPct)))))
      else if !cfg.ignoreShorts && short.entry(cur, prev) then
        Prepare(Some(EntryRequest(Sell, cfg, balance, cur.close,
                                  short.takeProfit(cur.close), short.stopLoss(cur.close))))
      else
        Prepare(None)
  }

  // ---------------------------------------------------------------------------
  // Plan and execution
  // ---------------------------------------------------------------------------

  /** No two primary orders. */
  ghost predicate AtMostOnePrimary(calls: seq<Call>)
  {
    forall i, j :: 0 <= i < j < |calls| ==> !(IsPrimary(calls[i]) && IsPrimary(calls[j]))
  }

  /** No account configuration after an order. */
  ghost predicate SetupBeforeOrders(calls: seq<Call>)
  {
    forall i, j :: 0 <= i < j < |calls| && calls[i].CreateOrder? ==> !IsSetup(calls[j])
  }

  /** Every protective order comes after a primary order. */
  ghost predicate PrimaryBeforeProtective(calls: seq<Call>)
  {
    forall j :: 0 <= j < |calls| && IsProtective(calls[j]) ==>
      exists i :: 0 <= i < j && IsPrimary(calls[i])
  }

  /** Every protective order comes after a primary order the exchange accepted. */
  ghost predicate ProtectiveAfterAcceptedPrimary(calls: seq<Call>, accepts: nat -> bool)
  {
    forall j :: 0 <= j < |calls| && IsProtective(calls[j]) ==>
      exists i :: 0 <= i < j && IsPrimary(calls[i]) && accepts(i)
  }

  /** The calls a decision leads to when the exchange accepts every one of them, and how
      the cycle ends then (a non-finite amount stops it inside `place_market_order`). */
  function Plan(cfg: Config, fmt: Precision, midPrice: real, d: Decision): (p: Trace)
    ensures p.outcome == Completed || p.outcome == Aborted(AmountNotFinite)
    ensures AtMostOnePrimary(p.calls)
    ensures SetupBeforeOrders(p.calls)
    ensures PrimaryBeforeProtective(p.calls)
  {
    match d
    case Hold => Trace([], Completed)
    case Exit(order) =>
      var placed := PlaceMarketOrder(order, fmt, midPrice);
      assert placed.calls != [] ==> placed.calls[0].CreateOrder? && IsPrimary(placed.calls[0]);
      placed
    case Prepare(entry) =>
      var setup := [SetLeverage(cfg.leverage), SetMarginMode(cfg.marginMode, cfg.leverage)];
      match entry
      case None => Trace(setup, Completed)
      case Some(order) =>
        var placed := PlaceMarketOrder(order, fmt, midPrice);
        var calls := setup + placed.calls;
        assert forall k :: 2 <= k < |calls| ==> calls[k] == placed.calls[k - 2];
        assert |calls| > 2 ==> IsPrimary(calls[2]);
        Trace(calls, placed.outcome)
  }

  /** Runs `plan` from call `n` on, stopping at the first call the exchange raises on.
      `accepts(i)` is the exchange's answer to the `i`-th call of the cycle. */
  function ExecuteFrom(plan: Trace, accepts: nat -> bool, n: nat): (run: Trace)
    requires n <= |plan.calls|
    decreases |plan.calls| - n
    ensures n <= |run.calls| <= |plan.calls|
    ensures run.calls == plan.calls[..|run.calls|]
    ensures forall i :: n <= i < |run.calls| - 1 ==> accepts(i)
    ensures (forall i :: n <= i < |plan.calls| ==> accepts(i)) ==> run == plan
    ensures (exists i :: n <= i < |plan.calls| && !accepts(i)) ==>
      |run.calls| > n && !accepts(|run.calls| - 1)
      && run.outcome == Aborted(GatewayRaised(|run.calls| - 1))
  {
    if n == |plan.calls| then plan
    else if !accepts(n) then Trace(plan.calls[..n + 1], Aborted(GatewayRaised(n)))
    else ExecuteFrom(plan, accepts, n + 1)
  }

  /** Runs a plan against the exchange: the calls are made in order, every call but the
      last was accepted, and the run is the whole plan exactly when every call is
      accepted; otherwise it ends on the first rejected call. */
  function Execute(plan: Trace, accepts: nat -> bool): (run: Trace)
    ensures run.calls <= plan.calls
    ensures forall i :: 0 <= i < |run.calls| - 1 ==> accepts(i)
    ensures (forall i :: 0 <= i < |plan.calls| ==> accepts(i)) ==> run == plan
    ensures (exists i :: 0 <= i < |plan.calls| && !accepts(i)) ==>
      |run.calls| > 0 && !accepts(|run.calls| - 1)
      && run.outcome == Aborted(GatewayRaised(|run.calls| - 1))
  {
    ExecuteFrom(plan, accepts, 0)
  }

  // ---------------------------------------------------------------------------
  // The cycle
  // ---------------------------------------------------------------------------

  /** The decision of one cycle on a snapshot with at least three candles. */
  function CycleDecision(cfg: Config, short: ShortRules, snap: Snapshot): Decision
    requires |snap.candles| >= 3
  {
    Decide(cfg, short, snap.balance, CurrentCandle(snap.candles), PreviousCandle(snap.candles),
           CurrentPosition(snap.positions))
  }

  /** One whole decision cycle. Fewer than three candles stop it before any call. */
  function Cycle(cfg: Config, short: ShortRules, fmt: Precision, snap: Snapshot,
                 accepts: nat -> bool): (run: Trace)
    ensures |snap.candles| < 3 ==> run == Trace([], Aborted(TooFewCandles))
    ensures |snap.candles| >= 3 ==>
      run.calls <= Plan(cfg, fmt, snap.midPrice, CycleDecision(cfg, short, snap)).calls
  {
    if |snap.candles| < 3 then Trace([], Aborted(TooFewCandles))
    else Execute(Plan(cfg, fmt, snap.midPrice, CycleDecision(cfg, short, snap)), accepts)
  }

  // ---------------------------------------------------------------------------
  // Reading back the order results, as written
  // ---------------------------------------------------------------------------

  /** The `info` part of an order result as the entry branch's log lines see it: empty,
      or a non-empty record that does or does not carry a `resting` entry (a market order
      that filled at once reports `filled` instead). */
  datatype Reply = EmptyInfo | Info(hasResting: bool)

  /** The first protective result, from call `k` on, whose `resting` entry is read and
      missing. */
  function FirstMissingResting(calls: seq<Call>, replies: nat -> Reply, k: nat): (r: Option<nat>)
    decreases |calls| - k
    ensures r.Some? ==> k <= r.value < |calls| && replies(r.value) == Info(false)
    ensures r.None? ==> forall i :: k <= i < |calls| ==> replies(i) != Info(false)
    ensures r.Some? ==> forall i :: k <= i < r.value ==> replies(i) != Info(false)
  {
    if k >= |calls| then None
    else if replies(k) == Info(false) then Some(k)
    else FirstMissingResting(calls, replies, k + 1)
  }

  /** The cycle as the program is written: after an entry whose calls all returned, the
      log lines evaluate `orders[...]['resting']` for the market order and, if its result
      is not empty, for each protective order; `verbose` only decides whether the line is
      printed. A non-empty result without that entry raises after every order was placed,
      and the main block exits with an error. `replies(i)` is the result of the `i`-th
      call. */
  function CycleAsWritten(cfg: Config, short: ShortRules, fmt: Precision, snap: Snapshot,
                          accepts: nat -> bool, replies: nat -> Reply): (run: Trace)
    ensures run.calls == Cycle(cfg, short, fmt, snap, accepts).calls
    ensures run.outcome != Cycle(cfg, short, fmt, snap, accepts).outcome ==>
      Cycle(cfg, short, fmt, snap, accepts).outcome == Completed
      && run.outcome.Aborted? && run.outcome.failure.ResultLacksResting?
      && 2 <= run.outcome.failure.index < |run.calls|
      && replies(run.outcome.failure.index) == Info(false)
    ensures !(|snap.candles| >= 3 && CurrentPosition(snap.positions).None?
              && Cycle(cfg, short, fmt, snap, accepts).outcome == Completed
              && |Cycle(cfg, short, fmt, snap, accepts).calls| > 2) ==>
      run == Cycle(cfg, short, fmt, snap, accepts)
    ensures |snap.candles| >= 3 && CurrentPosition(snap.positions).None?
            && Cycle(cfg, short, fmt, snap, accepts).outcome == Completed
            && |Cycle(cfg, short, fmt, snap, accepts).calls| > 2 ==>
      (run.outcome == Completed <==>
         replies(2) == EmptyInfo || forall i :: 2 <= i < |run.calls| ==> replies(i) != Info(false))
    ensures run.outcome.Aborted? && run.outcome.failure.ResultLacksResting? ==>
      forall i :: 2 <= i < run.outcome.failure.index ==> replies(i) != Info(false)
  {
    var run := Cycle(cfg, short, fmt, snap, accepts);
    if |snap.candles| >= 3 && CurrentPosition(snap.positions).None?
       && run.outcome == Completed && |run.calls| > 2 then
      if replies(2).EmptyInfo? then run
      else if !replies(2).hasResting then Trace(run.calls, Aborted(ResultLacksResting(2)))
      else
        match FirstMissingResting(run.calls, replies, 3)
        case None => run
        case Some(k) => Trace(run.calls, Aborted(ResultLacksResting(k)))
    else run
  }
}
