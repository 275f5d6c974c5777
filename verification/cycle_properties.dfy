/**
  Properties of a whole decision cycle, for every snapshot, configuration, short-side
  rule set, precision rule and pattern of exchange failures.
 */
module CycleProperties {
  import opened Base
  import opened Strategy
  import opened Client
  import opened Bot

  /** In every cycle: at most one primary order, account configuration only before any
      order, and a protective order only after a primary order the exchange accepted.
      So a rejected primary order is never followed by a take-profit or stop-loss order. */
  lemma CycleSafety(cfg: Config, short: ShortRules, fmt: Precision, snap: Snapshot,
                    accepts: nat -> bool)
    ensures AtMostOnePrimary(Cycle(cfg, short, fmt, snap, accepts).calls)
    ensures SetupBeforeOrders(Cycle(cfg, short, fmt, snap, accepts).calls)
    ensures ProtectiveAfterAcceptedPrimary(Cycle(cfg, short, fmt, snap, accepts).calls, accepts)
  {
    var run := Cycle(cfg, short, fmt, snap, accepts);
    if |snap.candles| >= 3 {
      var plan := Plan(cfg, fmt, snap.midPrice, CycleDecision(cfg, short, snap));
      assert run == Execute(plan, accepts);
      assert forall k :: 0 <= k < |run.calls| ==> run.calls[k] == plan.calls[k];
      forall j | 0 <= j < |run.calls| && IsProtective(run.calls[j])
        ensures exists i :: 0 <= i < j && IsPrimary(run.calls[i]) && accepts(i)
      {
        assert IsProtective(plan.calls[j]);
        var i :| 0 <= i < j && IsPrimary(plan.calls[i]);
        assert i < |run.calls| - 1;
        assert IsPrimary(run.calls[i]) && accepts(i);
      }
    }
  }

  /** Reported positions that all hold zero contracts are filtered out: the cycle is the
      one it would be with no position at all. */
  lemma ZeroContractsTreatedAsFlat(cfg: Config, short: ShortRules, fmt: Precision,
                                   snap: Snapshot, accepts: nat -> bool)
    requires forall i :: 0 <= i < |snap.positions| ==> snap.positions[i].contracts == 0.0
    ensures Cycle(cfg, short, fmt, snap, accepts)
         == Cycle(cfg, short, fmt, snap.(positions := []), accepts)
  {
    assert CurrentPosition(snap.positions) == None;
    assert CurrentPosition([]) == None;
  }

  /** With an active position the cycle configures nothing and issues at most one order:
      a reduce-only order for the whole formatted position size, without levels. It is a
      sell exactly when a long position's exit fires with longs and exits enabled, and a
      buy exactly when a short position's exit fires with shorts and exits enabled. */
  lemma HeldPositionOnlyExits(cfg: Config, short: ShortRules, fmt: Precision, snap: Snapshot,
                              accepts: nat -> bool)
    requires |snap.candles| >= 3
    requires CurrentPosition(snap.positions).Some?
    ensures var run := Cycle(cfg, short, fmt, snap, accepts);
            var pos := CurrentPosition(snap.positions).value;
            var cur := CurrentCandle(snap.candles);
            var prev := PreviousCandle(snap.candles);
            && |run.calls| <= 1
            && (|run.calls| == 1 ==>
                  run.calls[0].CreateOrder? && run.calls[0].role == Primary && run.calls[0].reduceOnly
                  && run.calls[0].amount == fmt.amount(Abs(pos.contracts))
                  && run.calls[0].price == fmt.price(snap.midPrice)
                  && run.calls[0].takeProfit.None? && run.calls[0].stopLoss.None?)
            && ((|run.calls| == 1 && run.calls[0].side == Sell) <==>
                  HeldSide(pos) == HeldLong && !cfg.ignoreLongs && !cfg.ignoreExit
                  && LongExit(cur, prev, cfg.rsiOverbought))
            && ((|run.calls| == 1 && run.calls[0].side == Buy) <==>
                  HeldSide(pos) == HeldShort && !cfg.ignoreShorts && !cfg.ignoreExit
                  && short.exit(cur, prev))
  {
    var run := Cycle(cfg, short, fmt, snap, accepts);
    var d := CycleDecision(cfg, short, snap);
    var plan := Plan(cfg, fmt, snap.midPrice, d);
    assert run == Execute(plan, accepts);
    match d
    case Hold =>
      assert plan.calls == [];
    case Exit(order) =>
      assert plan == PlaceMarketOrder(order, fmt, snap.midPrice);
      assert |plan.calls| == 1;
    case Prepare(_) =>
      assert false;
  }

  /** When flat, the cycle first sets the leverage and then the margin mode, whatever the
      signals say; only orders follow them. A rejected call ends the cycle there. */
  lemma FlatConfiguresFirst(cfg: Config, short: ShortRules, fmt: Precision, snap: Snapshot,
                            accepts: nat -> bool)
    requires |snap.candles| >= 3
    requires CurrentPosition(snap.positions).None?
    ensures var run := Cycle(cfg, short, fmt, snap, accepts);
            && |run.calls| >= 1
            && run.calls[0] == SetLeverage(cfg.leverage)
            && (|run.calls| >= 2 <==> accepts(0))
            && (|run.calls| >= 2 ==> run.calls[1] == SetMarginMode(cfg.marginMode, cfg.leverage))
            && (forall i :: 2 <= i < |run.calls| ==> run.calls[i].CreateOrder?)
            && (!accepts(0) ==> run.outcome == Aborted(GatewayRaised(0)))
    ensures var run := Cycle(cfg, short, fmt, snap, accepts);
            var cur := CurrentCandle(snap.candles);
            var prev := PreviousCandle(snap.candles);
            (exists i :: 0 <= i < |run.calls| && run.calls[i].CreateOrder?) ==>
              (!cfg.ignoreLongs && LongEntry(cur, prev, cfg.rsiOverbought))
              || (!cfg.ignoreShorts && short.entry(cur, prev))
  {
    var run := Cycle(cfg, short, fmt, snap, accepts);
    var d := CycleDecision(cfg, short, snap);
    var plan := Plan(cfg, fmt, snap.midPrice, d);
    assert run == Execute(plan, accepts);
    assert d.Prepare?;
    assert |plan.calls| >= 2 && plan.calls[0] == SetLeverage(cfg.leverage);
    assert plan.calls[1] == SetMarginMode(cfg.marginMode, cfg.leverage);
    assert forall i :: 2 <= i < |plan.calls| ==> plan.calls[i].CreateOrder?;
    if !accepts(0) {
      assert exists i :: 0 <= i < |plan.calls| && !accepts(i);
    }
  }

  /** When flat, the long entry is tested first: if it fires with longs enabled, every
      primary order of the cycle is an opening buy, whatever the short-side rules say. */
  lemma LongEntryHasPriority(cfg: Config, short: ShortRules, fmt: Precision, snap: Snapshot,
                             accepts: nat -> bool)
    requires |snap.candles| >= 3
    requires CurrentPosition(snap.positions).None?
    requires !cfg.ignoreLongs
    requires LongEntry(CurrentCandle(snap.candles), PreviousCandle(snap.candles), cfg.rsiOverbought)
    ensures var run := Cycle(cfg, short, fmt, snap, accepts);
            forall i :: 0 <= i < |run.calls| && IsPrimary(run.calls[i]) ==>
              run.calls[i].side == Buy && !run.calls[i].reduceOnly
  {
    var run := Cycle(cfg, short, fmt, snap, accepts);
    var d := CycleDecision(cfg, short, snap);
    var plan := Plan(cfg, fmt, snap.midPrice, d);
    assert run == Execute(plan, accepts);
    assert d.Prepare? && d.entry.Some? && d.entry.value.side == Buy;
    var placed := PlaceMarketOrder(d.entry.value, fmt, snap.midPrice);
    assert plan.calls == [SetLeverage(cfg.leverage), SetMarginMode(cfg.marginMode, cfg.leverage)] + placed.calls;
    forall i | 0 <= i < |run.calls| && IsPrimary(run.calls[i])
      ensures run.calls[i].side == Buy && !run.calls[i].reduceOnly
    {
      assert run.calls[i] == plan.calls[i];
      assert i == 2;
    }
  }

  /** A flat cycle in which the long entry fires with longs enabled and the exchange
      accepts both configuration calls: the third call is the buy, sized at
      `balance * position_size_pct / 100 / close`, at the formatted mid price, carrying
      the formatted levels `close * (1 + tp_pct/100)` and `close * (1 - sl_pct/100)`
      unless ignored. A take-profit order follows exactly when it is not ignored and the
      buy was accepted; a stop-loss order exactly when it is not ignored, the buy was
      accepted and the take-profit order, if any, was accepted. */
  lemma LongEntryOrder(cfg: Config, short: ShortRules, fmt: Precision, snap: Snapshot,
                       accepts: nat -> bool)
    requires |snap.candles| >= 3
    requires CurrentPosition(snap.positions).None?
    requires !cfg.ignoreLongs
    requires LongEntry(CurrentCandle(snap.candles), PreviousCandle(snap.candles), cfg.rsiOverbought)
    requires CurrentCandle(snap.candles).close != 0.0
    requires accepts(0) && accepts(1)
    ensures |Cycle(cfg, short, fmt, snap, accepts).calls| >= 3
    ensures Cycle(cfg, short, fmt, snap, accepts).calls[2] == CreateOrder(
              Primary, Buy,
              fmt.amount(EntryAmount(snap.balance, cfg.positionSizePct, CurrentCandle(snap.candles).close).value),
              fmt.price(snap.midPrice), false,
              if cfg.ignoreTp then None
              else Some(fmt.price(LongTakeProfit(CurrentCandle(snap.candles).close, cfg.tpPct))),
              if cfg.ignoreSl then None
              else Some(fmt.price(LongStopLoss(CurrentCandle(snap.candles).close, cfg.slPct))))
    ensures var run := Cycle(cfg, short, fmt, snap, accepts);
            !accepts(2) ==> |run.calls| == 3 && run.outcome == Aborted(GatewayRaised(2))
    ensures var run := Cycle(cfg, short, fmt, snap, accepts);
            (exists j :: 0 <= j < |run.calls| && IsProtective(run.calls[j]) && run.calls[j].role == TakeProfit)
            <==> !cfg.ignoreTp && accepts(2)
    ensures var run := Cycle(cfg, short, fmt, snap, accepts);
            (exists j :: 0 <= j < |run.calls| && IsProtective(run.calls[j]) && run.calls[j].role == StopLoss)
            <==> !cfg.ignoreSl && accepts(2) && (cfg.ignoreTp || accepts(3))
  {
    var run := Cycle(cfg, short, fmt, snap, accepts);
    var close := CurrentCandle(snap.candles).close;
    var d := CycleDecision(cfg, short, snap);
    var plan := Plan(cfg, fmt, snap.midPrice, d);
    assert run == Execute(plan, accepts);
    var cur := CurrentCandle(snap.candles);
    assert cur.close == close;
    var req := EntryRequest(Buy, cfg, snap.balance, close,
                            Some(LongTakeProfit(close, cfg.tpPct)), Some(LongStopLoss(close, cfg.slPct)));
    assert d == Prepare(Some(req));
    assert req.amount == EntryAmount(snap.balance, cfg.positionSizePct, close);
    var placed := PlaceMarketOrder(req, fmt, snap.midPrice);
    var setup := [SetLeverage(cfg.leverage), SetMarginMode(cfg.marginMode, cfg.leverage)];
    assert plan.calls == setup + placed.calls;
    assert plan.outcome == Completed;
    var n := |plan.calls|;
    assert n == 3 + (if cfg.ignoreTp then 0 else 1) + (if cfg.ignoreSl then 0 else 1);
    assert forall k :: 2 <= k < n ==> plan.calls[k] == placed.calls[k - 2];
    // Where each protective order sits in the plan.
    assert !cfg.ignoreTp ==> plan.calls[3].role == TakeProfit;
    assert !cfg.ignoreSl ==> plan.calls[n - 1].role == StopLoss;
    assert forall k :: 0 <= k < n && plan.calls[k].CreateOrder? && plan.calls[k].role == TakeProfit ==> k == 3;
    assert forall k :: 0 <= k < n && plan.calls[k].CreateOrder? && plan.calls[k].role == StopLoss ==> k == n - 1;
    // How far the run gets.
    if !(exists i :: 0 <= i < n && !accepts(i)) {
      assert run == plan;
    }
    assert !accepts(2) ==> |run.calls| == 3;
    assert !cfg.ignoreTp && accepts(2) && !accepts(3) ==> |run.calls| == 4;
    assert |run.calls| >= 3;
    assert run.calls[2] == placed.calls[0];
    assert req.takeProfit == if cfg.ignoreTp then None else Some(LongTakeProfit(close, cfg.tpPct));
    assert req.stopLoss == if cfg.ignoreSl then None else Some(LongStopLoss(close, cfg.slPct));
  }

  /** A flat cycle in which no enabled entry fires only configures the account: it makes
      at most the two configuration calls and no order, and it completes when both are
      accepted. */
  lemma FlatWithoutSignalOnlyConfigures(cfg: Config, short: ShortRules, fmt: Precision,
                                        snap: Snapshot, accepts: nat -> bool)
    requires |snap.candles| >= 3
    requires CurrentPosition(snap.positions).None?
    requires !(!cfg.ignoreLongs && LongEntry(CurrentCandle(snap.candles), PreviousCandle(snap.candles), cfg.rsiOverbought))
    requires !(!cfg.ignoreShorts && short.entry(CurrentCandle(snap.candles), PreviousCandle(snap.candles)))
    ensures var run := Cycle(cfg, short, fmt, snap, accepts);
            && |run.calls| <= 2
            && (forall i :: 0 <= i < |run.calls| ==> IsSetup(run.calls[i]))
            && (accepts(0) && accepts(1) ==>
                  run == Trace([SetLeverage(cfg.leverage), SetMarginMode(cfg.marginMode, cfg.leverage)], Completed))
  {
    var d := CycleDecision(cfg, short, snap);
    var plan := Plan(cfg, fmt, snap.midPrice, d);
    assert d == Prepare(None);
    assert plan == Trace([SetLeverage(cfg.leverage), SetMarginMode(cfg.marginMode, cfg.leverage)], Completed);
    if accepts(0) && accepts(1) {
      assert forall i :: 0 <= i < |plan.calls| ==> accepts(i);
    }
  }

  /** How far an entry gets once both configuration calls were accepted: the third call
      is the request's primary order; its take-profit order follows exactly when the
      request has a level and the primary order was accepted; its stop-loss order exactly
      when the request has a level and the primary order and any take-profit order were
      accepted. */
  lemma EntryRun(cfg: Config, fmt: Precision, midPrice: real, req: OrderRequest, accepts: nat -> bool)
    requires req.amount.Some?
    requires accepts(0) && accepts(1)
    ensures var run := Execute(Plan(cfg, fmt, midPrice, Prepare(Some(req))), accepts);
            && |run.calls| >= 3
            && run.calls[2] == PlaceMarketOrder(req, fmt, midPrice).calls[0]
            && (!accepts(2) ==> |run.calls| == 3 && run.outcome == Aborted(GatewayRaised(2)))
            && ((exists j :: 0 <= j < |run.calls| && IsProtective(run.calls[j]) && run.calls[j].role == TakeProfit)
                <==> req.takeProfit.Some? && accepts(2))
            && ((exists j :: 0 <= j < |run.calls| && IsProtective(run.calls[j]) && run.calls[j].role == StopLoss)
                <==> req.stopLoss.Some? && accepts(2) && (req.takeProfit.None? || accepts(3)))
  {
    var plan := Plan(cfg, fmt, midPrice, Prepare(Some(req)));
    var run := Execute(plan, accepts);
    var placed := PlaceMarketOrder(req, fmt, midPrice);
    assert plan.calls == [SetLeverage(cfg.leverage), SetMarginMode(cfg.marginMode, cfg.leverage)] + placed.calls;
    var n := |plan.calls|;
    assert n == 3 + (if req.takeProfit.Some? then 1 else 0) + (if req.stopLoss.Some? then 1 else 0);
    assert forall k :: 2 <= k < n ==> plan.calls[k] == placed.calls[k - 2];
    assert req.takeProfit.Some? ==> plan.calls[3].role == TakeProfit;
    assert req.stopLoss.Some? ==> plan.calls[n - 1].role == StopLoss;
    assert forall k :: 0 <= k < n && plan.calls[k].CreateOrder? && plan.calls[k].role == TakeProfit ==> k == 3;
    assert forall k :: 0 <= k < n && plan.calls[k].CreateOrder? && plan.calls[k].role == StopLoss ==> k == n - 1;
    if !(exists i :: 0 <= i < n && !accepts(i)) {
      assert run == plan;
    }
    assert !accepts(2) ==> |run.calls| == 3;
    assert req.takeProfit.Some? && accepts(2) && !accepts(3) ==> |run.calls| == 4;
  }

  /** A flat cycle in which the short entry fires with shorts enabled and the long entry
      does not: once both configuration calls are accepted, the third call is the sell,
      sized like the long entry, carrying the short-side levels the flags leave switched
      on. A take-profit order follows exactly when the short rules give a level, it is
      not ignored and the sell was accepted; a stop-loss order likewise, once any
      take-profit order was accepted too. */
  lemma ShortEntryOrder(cfg: Config, short: ShortRules, fmt: Precision, snap: Snapshot,
                        accepts: nat -> bool)
    requires |snap.candles| >= 3
    requires CurrentPosition(snap.positions).None?
    requires !(!cfg.ignoreLongs && LongEntry(CurrentCandle(snap.candles), PreviousCandle(snap.candles), cfg.rsiOverbought))
    requires !cfg.ignoreShorts && short.entry(CurrentCandle(snap.candles), PreviousCandle(snap.candles))
    requires CurrentCandle(snap.candles).close != 0.0
    requires accepts(0) && accepts(1)
    ensures |Cycle(cfg, short, fmt, snap, accepts).calls| >= 3
    ensures Cycle(cfg, short, fmt, snap, accepts).calls[2] == CreateOrder(
              Primary, Sell,
              fmt.amount(EntryAmount(snap.balance, cfg.positionSizePct, CurrentCandle(snap.candles).close).value),
              fmt.price(snap.midPrice), false,
              if cfg.ignoreTp then None else FormatPrice(fmt, short.takeProfit(CurrentCandle(snap.candles).close)),
              if cfg.ignoreSl then None else FormatPrice(fmt, short.stopLoss(CurrentCandle(snap.candles).close)))
    ensures var run := Cycle(cfg, short, fmt, snap, accepts);
            !accepts(2) ==> |run.calls| == 3 && run.outcome == Aborted(GatewayRaised(2))
    ensures var run := Cycle(cfg, short, fmt, snap, accepts);
            var tp := short.takeProfit(CurrentCandle(snap.candles).close);
            (exists j :: 0 <= j < |run.calls| && IsProtective(run.calls[j]) && run.calls[j].role == TakeProfit)
            <==> !cfg.ignoreTp && tp.Some? && accepts(2)
    ensures var run := Cycle(cfg, short, fmt, snap, accepts);
            var tp := short.takeProfit(CurrentCandle(snap.candles).close);
            var sl := short.stopLoss(CurrentCandle(snap.candles).close);
            (exists j :: 0 <= j < |run.calls| && IsProtective(run.calls[j]) && run.calls[j].role == StopLoss)
            <==> !cfg.ignoreSl && sl.Some? && accepts(2) && (cfg.ignoreTp || tp.None? || accepts(3))
  {
    var close := CurrentCandle(snap.candles).close;
    var d := CycleDecision(cfg, short, snap);
    assert d.Prepare? && d.entry.Some? && d.entry.value.side == Sell;
    var req := d.entry.value;
    assert req.amount == EntryAmount(snap.balance, cfg.positionSizePct, close);
    EntryRun(cfg, fmt, snap.midPrice, req, accepts);
  }

  /** A zero close gives no finite amount, for a long or a short entry alike: after the
      two configuration calls the cycle stops before any order, because the amount cannot
      be formatted. */
  lemma ZeroCloseStopsBeforeOrder(cfg: Config, short: ShortRules, fmt: Precision,
                                  snap: Snapshot, accepts: nat -> bool)
    requires |snap.candles| >= 3
    requires CurrentPosition(snap.positions).None?
    requires (!cfg.ignoreLongs && LongEntry(CurrentCandle(snap.candles), PreviousCandle(snap.candles), cfg.rsiOverbought))
             || (!cfg.ignoreShorts && short.entry(CurrentCandle(snap.candles), PreviousCandle(snap.candles)))
    requires CurrentCandle(snap.candles).close == 0.0
    requires accepts(0) && accepts(1)
    ensures Cycle(cfg, short, fmt, snap, accepts)
         == Trace([SetLeverage(cfg.leverage), SetMarginMode(cfg.marginMode, cfg.leverage)],
                  Aborted(AmountNotFinite))
  {
    var d := CycleDecision(cfg, short, snap);
    var plan := Plan(cfg, fmt, snap.midPrice, d);
    assert d.entry.value.amount.None?;
    assert plan.calls == [SetLeverage(cfg.leverage), SetMarginMode(cfg.marginMode, cfg.leverage)] + [];
  }

  /** With the short rules as the program writes them, no cycle ever opens a short and a
      held short position is never touched. */
  lemma StubShortsNeverTrade(cfg: Config, fmt: Precision, snap: Snapshot, accepts: nat -> bool)
    ensures var run := Cycle(cfg, Stubs(), fmt, snap, accepts);
            forall i :: 0 <= i < |run.calls| && IsPrimary(run.calls[i]) && !run.calls[i].reduceOnly ==>
              run.calls[i].side == Buy
    ensures |snap.candles| >= 3 && CurrentPosition(snap.positions).Some?
            && HeldSide(CurrentPosition(snap.positions).value) == HeldShort ==>
            Cycle(cfg, Stubs(), fmt, snap, accepts) == Trace([], Completed)
  {
    var run := Cycle(cfg, Stubs(), fmt, snap, accepts);
    if |snap.candles| >= 3 {
      var d := CycleDecision(cfg, Stubs(), snap);
      var plan := Plan(cfg, fmt, snap.midPrice, d);
      assert run == Execute(plan, accepts);
      assert !Stubs().entry(CurrentCandle(snap.candles), PreviousCandle(snap.candles));
      assert !Stubs().exit(CurrentCandle(snap.candles), PreviousCandle(snap.candles));
      match d
      case Hold =>
        assert run == plan;
      case Exit(order) =>
        assert order.reduceOnly;
        assert forall i :: 0 <= i < |run.calls| && IsPrimary(run.calls[i]) ==> run.calls[i].reduceOnly;
      case Prepare(entry) =>
        match entry
        case None =>
        case Some(order) =>
          assert order.side == Buy;
          var placed := PlaceMarketOrder(order, fmt, snap.midPrice);
          assert plan.calls == [SetLeverage(cfg.leverage), SetMarginMode(cfg.marginMode, cfg.leverage)] + placed.calls;
          forall i | 0 <= i < |run.calls| && IsPrimary(run.calls[i])
            ensures run.calls[i].side == Buy
          {
            assert run.calls[i] == plan.calls[i];
            assert i == 2;
          }
    }
  }

  /** The worked example: balance 10000, 5% sizing, a close and mid price of 2000, the RSI
      crossing 70 upwards, 10% take profit and 5% stop loss, exact formatting and an
      exchange that accepts everything. The cycle makes exactly five calls: leverage,
      margin mode, a buy of 0.25, a take-profit sell at 2200 and a stop-loss sell at 1900. */
  lemma WorkedExample()
    ensures var cfg := Defaults();
            var snap := Snapshot(10000.0,
                                 [Candle(1990.0, Some(65.0)), Candle(2000.0, Some(75.0)), Candle(2010.0, Some(80.0))],
                                 [], 2000.0);
            var fmt := Precision((x: real) => x, (x: real) => x);
            Cycle(cfg, Stubs(), fmt, snap, (i: nat) => true)
            == Trace([SetLeverage(1), SetMarginMode(Isolated, 1),
                      CreateOrder(Primary, Buy, 0.25, 2000.0, false, Some(2200.0), Some(1900.0)),
                      CreateOrder(TakeProfit, Sell, 0.25, 2000.0, true, Some(2200.0), None),
                      CreateOrder(StopLoss, Sell, 0.25, 2000.0, true, None, Some(1900.0))],
                     Completed)
  {
    var cfg := Defaults();
    var snap := Snapshot(10000.0,
                         [Candle(1990.0, Some(65.0)), Candle(2000.0, Some(75.0)), Candle(2010.0, Some(80.0))],
                         [], 2000.0);
    var fmt := Precision((x: real) => x, (x: real) => x);
    var accepts := (i: nat) => true;
    var d := CycleDecision(cfg, Stubs(), snap);
    assert CurrentCandle(snap.candles) == Candle(2000.0, Some(75.0));
    assert PreviousCandle(snap.candles) == Candle(1990.0, Some(65.0));
    assert d == Prepare(Some(OrderRequest(Buy, Some(0.25), false, Some(2200.0), Some(1900.0))));
    var plan := Plan(cfg, fmt, snap.midPrice, d);
    assert forall i :: 0 <= i < |plan.calls| ==> accepts(i);
  }

  /** With the program's own settings the cycle never opens a short and never touches a
      held short, whatever the short-side rules are: shorts are switched off. */
  lemma DefaultsTradeLongsOnly(short: ShortRules, fmt: Precision, snap: Snapshot, accepts: nat -> bool)
    ensures var run := Cycle(Defaults(), short, fmt, snap, accepts);
            forall i :: 0 <= i < |run.calls| && IsPrimary(run.calls[i]) && !run.calls[i].reduceOnly ==>
              run.calls[i].side == Buy
    ensures |snap.candles| >= 3 && CurrentPosition(snap.positions).Some?
            && HeldSide(CurrentPosition(snap.positions).value) == HeldShort ==>
            Cycle(Defaults(), short, fmt, snap, accepts) == Trace([], Completed)
  {
    var cfg := Defaults();
    var run := Cycle(cfg, short, fmt, snap, accepts);
    if |snap.candles| >= 3 {
      var d := CycleDecision(cfg, short, snap);
      var plan := Plan(cfg, fmt, snap.midPrice, d);
      assert run == Execute(plan, accepts);
      match d
      case Hold =>
      case Exit(order) =>
        assert forall i :: 0 <= i < |run.calls| && IsPrimary(run.calls[i]) ==> run.calls[i].reduceOnly;
      case Prepare(entry) =>
        match entry
        case None =>
        case Some(order) =>
          assert order.side == Buy;
          var placed := PlaceMarketOrder(order, fmt, snap.midPrice);
          assert plan.calls == [SetLeverage(cfg.leverage), SetMarginMode(cfg.marginMode, cfg.leverage)] + placed.calls;
          forall i | 0 <= i < |run.calls| && IsPrimary(run.calls[i])
            ensures run.calls[i].side == Buy
          {
            assert run.calls[i] == plan.calls[i];
            assert i == 2;
          }
    }
  }

  /** A cycle stops early only for a reason of its own: too few candles, an amount that
      cannot be formatted because the close is zero, or a gateway call that raised. So a
      cycle in which every gateway call returns and the close is not zero completes. */
  lemma CycleFailsOnlyOnRaise(cfg: Config, short: ShortRules, fmt: Precision, snap: Snapshot,
                              accepts: nat -> bool)
    ensures var run := Cycle(cfg, short, fmt, snap, accepts);
            run.outcome == Aborted(TooFewCandles) <==> |snap.candles| < 3
    ensures var run := Cycle(cfg, short, fmt, snap, accepts);
            run.outcome == Aborted(AmountNotFinite) ==>
              |snap.candles| >= 3 && CurrentCandle(snap.candles).close == 0.0
    ensures var run := Cycle(cfg, short, fmt, snap, accepts);
            run.outcome.Aborted? ==>
              run.outcome.failure == TooFewCandles || run.outcome.failure == AmountNotFinite
              || (run.outcome.failure.GatewayRaised? && !accepts(run.outcome.failure.index))
    ensures (forall i :: accepts(i)) && |snap.candles| >= 3 && CurrentCandle(snap.candles).close != 0.0 ==>
            Cycle(cfg, short, fmt, snap, accepts).outcome == Completed
  {
    var run := Cycle(cfg, short, fmt, snap, accepts);
    if |snap.candles| >= 3 {
      var d := CycleDecision(cfg, short, snap);
      var plan := Plan(cfg, fmt, snap.midPrice, d);
      assert run == Execute(plan, accepts);
      if plan.outcome == Aborted(AmountNotFinite) {
        assert d.Prepare? && d.entry.Some? && d.entry.value.amount.None?;
      }
      if !(exists i :: 0 <= i < |plan.calls| && !accepts(i)) {
        assert run == plan;
      }
    }
  }

  /** The cycle as written, on the worked example, when the market order fills at once so
      that its result reports `filled` and no `resting` entry: all five orders are placed,
      and then the log line raises and the bot exits with an error. */
  lemma FilledEntryEndsInError()
    ensures var snap := Snapshot(10000.0,
                                 [Candle(1990.0, Some(65.0)), Candle(2000.0, Some(75.0)), Candle(2010.0, Some(80.0))],
                                 [], 2000.0);
            var fmt := Precision((x: real) => x, (x: real) => x);
            var replies := (i: nat) => if i == 2 then Info(false) else Info(true);
            var run := CycleAsWritten(Defaults(), Stubs(), fmt, snap, (i: nat) => true, replies);
            |run.calls| == 5 && run.outcome == Aborted(ResultLacksResting(2))
  {
    var snap := Snapshot(10000.0,
                         [Candle(1990.0, Some(65.0)), Candle(2000.0, Some(75.0)), Candle(2010.0, Some(80.0))],
                         [], 2000.0);
    var fmt := Precision((x: real) => x, (x: real) => x);
    WorkedExample();
    assert |Cycle(Defaults(), Stubs(), fmt, snap, (i: nat) => true).calls| == 5;
  }
}
