/**
  The parts of the exchange client the decision depends on: the filter that drops empty
  positions, the gateway calls a cycle can make, and the expansion of one market order
  into a primary order followed by its optional take-profit and stop-loss orders.
 */
module Client {
  import opened Base

  /** The account's margin mode: "isolated" or "cross". */
  datatype MarginMode = Isolated | Cross

  /** One entry of the exchange's position list: the reported side string and the
      signed number of contracts. */
  datatype Position = Position(side: string, contracts: real)

  // ---------------------------------------------------------------------------
  // Positions
  // ---------------------------------------------------------------------------

  /** `r` keeps some of the entries of `ps`, in the order they appear there. */
  ghost predicate IsSubsequence(r: seq<Position>, ps: seq<Position>)
    decreases |ps|
  {
    r == [] || (ps != [] && ((r[0] == ps[0] && IsSubsequence(r[1..], ps[1..])) || IsSubsequence(r, ps[1..])))
  }

  /** `fetch_positions`: the reported positions whose contract count is not zero, in the
      order the exchange reported them. */
  function ActivePositions(ps: seq<Position>): (r: seq<Position>)
    ensures |r| <= |ps|
    ensures forall i :: 0 <= i < |r| ==> r[i].contracts != 0.0
    ensures forall p :: p in r ==> p in ps
    ensures forall i :: 0 <= i < |ps| && ps[i].contracts != 0.0 ==> ps[i] in r
    ensures |r| > 0 ==> FirstActiveAt(ps, r[0])
  {
    if ps == [] then []
    else
      var rest := ActivePositions(ps[1..]);
      if ps[0].contracts != 0.0 then
        [ps[0]] + rest
      else
        assert |rest| > 0 ==> FirstActiveAt(ps, rest[0]) by {
          if |rest| > 0 {
            var i :| 0 <= i < |ps[1..]| && ps[1..][i] == rest[0] && NoneActiveBefore(ps[1..], i);
            assert ps[i + 1] == rest[0];
            assert NoneActiveBefore(ps, i + 1);
          }
        }
        rest
  }

  /** The filter keeps every non-empty entry as often as it was reported and in the
      reported order: the result is the one subsequence of the report that holds no
      empty entry and all the others. */
  lemma {:induction false} ActivePositionsKeepOrder(ps: seq<Position>)
    ensures IsSubsequence(ActivePositions(ps), ps)
    ensures forall p: Position :: p.contracts != 0.0 ==>
      multiset(ActivePositions(ps))[p] == multiset(ps)[p]
  {
    if ps != [] {
      ActivePositionsKeepOrder(ps[1..]);
      var rest := ActivePositions(ps[1..]);
      assert ps == [ps[0]] + ps[1..];
      if ps[0].contracts != 0.0 {
        assert ActivePositions(ps) == [ps[0]] + rest;
        assert ([ps[0]] + rest)[1..] == rest;
      } else {
        assert ActivePositions(ps) == rest;
      }
    }
  }

  /** No position before index `i` holds contracts. */
  ghost predicate NoneActiveBefore(ps: seq<Position>, i: int)
  {
    forall j :: 0 <= j < i && j < |ps| ==> ps[j].contracts == 0.0
  }

  /** `p` is the first position of the list that holds contracts. */
  ghost predicate FirstActiveAt(ps: seq<Position>, p: Position)
  {
    exists i :: 0 <= i < |ps| && ps[i] == p && NoneActiveBefore(ps, i)
  }

  /** The position the cycle acts on: the first active one, or none when every reported
      position is empty (`positions[0] if positions else None`). */
  function CurrentPosition(ps: seq<Position>): (r: Option<Position>)
    ensures r.None? <==> forall i :: 0 <= i < |ps| ==> ps[i].contracts == 0.0
    ensures r.Some? ==> r.value.contracts != 0.0 && FirstActiveAt(ps, r.value)
  {
    var active := ActivePositions(ps);
    if |active| > 0 then Some(active[0]) else None
  }

  // ---------------------------------------------------------------------------
  // Gateway calls
  // ---------------------------------------------------------------------------

  /** The exchange's precision rules (`amount_to_precision`, `price_to_precision`). They
      are exchange-defined, so the model keeps them uninterpreted. */
  datatype Precision = Precision(amount: real -> real, price: real -> real)

  /** Which `create_order` site issued an order: the market order itself, or the
      take-profit or stop-loss order attached after it. */
  datatype Role = Primary | TakeProfit | StopLoss

  /** A state-changing call on the exchange, with the arguments the client passes. */
  datatype Call =
    | SetLeverage(leverage: int)
    | SetMarginMode(mode: MarginMode, leverage: int)
    | CreateOrder(role: Role, side: Side, amount: real, price: real, reduceOnly: bool,
                  takeProfit: Option<real>, stopLoss: Option<real>)

  predicate IsSetup(c: Call)
  {
    c.SetLeverage? || c.SetMarginMode?
  }

  predicate IsPrimary(c: Call)
  {
    c.CreateOrder? && c.role == Primary
  }

  predicate IsProtective(c: Call)
  {
    c.CreateOrder? && c.role != Primary
  }

  /** The arguments of `place_market_order`. The amount is `None` when it is not a
      finite number. */
  datatype OrderRequest = OrderRequest(
    side: Side, amount: Option<real>, reduceOnly: bool,
    takeProfit: Option<real>, stopLoss: Option<real>)

  /** Why a cycle stopped early. */
  datatype Failure =
    | TooFewCandles          // fewer than three candles: there is no previous candle
    | AmountNotFinite        // the amount formatter raised on an infinite or NaN amount
    | GatewayRaised(index: nat)  // the exchange raised on the call at this position
    | ResultLacksResting(index: nat)  // the log line read a `resting` entry this call's result lacks

  datatype Outcome = Completed | Aborted(failure: Failure)

  /** The ordered gateway calls of one cycle and how the cycle ended. */
  datatype Trace = Trace(calls: seq<Call>, outcome: Outcome)

  /** What one call of `place_market_order` issues: the primary order first, then only
      protective orders. */
  ghost predicate OrderGroup(os: seq<Call>)
  {
    |os| >= 1 && IsPrimary(os[0]) && forall k :: 1 <= k < |os| ==> IsProtective(os[k])
  }

  function FormatPrice(fmt: Precision, level: Option<real>): Option<real>
  {
    match level
    case None => None
    case Some(v) => Some(fmt.price(v))
  }

  /** A protective order closing `side`: reduce-only, on the opposite side, with the same
      formatted amount and reference price as the primary. */
  function Protective(role: Role, side: Side, amount: real, price: real,
                      takeProfit: Option<real>, stopLoss: Option<real>): Call
  {
    CreateOrder(role, Opposite(side), amount, price, true, takeProfit, stopLoss)
  }

  /** `place_market_order`: the calls it makes when the exchange accepts each of them.
      The amount and the mid price are formatted once and shared by every order; the
      primary order comes first, then a take-profit order only if a take-profit level
      was given, then a stop-loss order only if a stop-loss level was given. */
  function PlaceMarketOrder(req: OrderRequest, fmt: Precision, midPrice: real): (r: Trace)
    ensures req.amount.None? ==> r == Trace([], Aborted(AmountNotFinite))
    ensures req.amount.Some? ==> r.outcome == Completed && OrderGroup(r.calls)
    ensures req.amount.Some? ==>
      r.calls[0] == CreateOrder(Primary, req.side, fmt.amount(req.amount.value), fmt.price(midPrice),
                                req.reduceOnly, FormatPrice(fmt, req.takeProfit), FormatPrice(fmt, req.stopLoss))
    ensures req.amount.Some? ==>
      |r.calls| == 1 + (if req.takeProfit.Some? then 1 else 0) + (if req.stopLoss.Some? then 1 else 0)
    ensures forall k :: 1 <= k < |r.calls| ==>
      r.calls[k].reduceOnly && r.calls[k].side == Opposite(req.side)
      && r.calls[k].amount == r.calls[0].amount && r.calls[k].price == r.calls[0].price
    ensures forall k :: 1 <= k < |r.calls| && r.calls[k].role == TakeProfit ==>
      k == 1 && r.calls[k].takeProfit == FormatPrice(fmt, req.takeProfit) && r.calls[k].takeProfit.Some?
      && r.calls[k].stopLoss.None?
    ensures forall k :: 1 <= k < |r.calls| && r.calls[k].role == StopLoss ==>
      k == |r.calls| - 1 && r.calls[k].stopLoss == FormatPrice(fmt, req.stopLoss) && r.calls[k].stopLoss.Some?
      && r.calls[k].takeProfit.None?
    ensures (exists k :: 0 <= k < |r.calls| && r.calls[k].role == TakeProfit)
            <==> req.amount.Some? && req.takeProfit.Some?
    ensures (exists k :: 0 <= k < |r.calls| && r.calls[k].role == StopLoss)
            <==> req.amount.Some? && req.stopLoss.Some?
  {
    match req.amount
    case None => Trace([], Aborted(AmountNotFinite))
    case Some(raw) =>
      var amount := fmt.amount(raw);
      var price := fmt.price(midPrice);
      var primary := CreateOrder(Primary, req.side, amount, price, req.reduceOnly,
                                 FormatPrice(fmt, req.takeProfit), FormatPrice(fmt, req.stopLoss));
      var tp := if req.takeProfit.Some?
                then [Protective(TakeProfit, req.side, amount, price, FormatPrice(fmt, req.takeProfit), None)]
                else [];
      var sl := if req.stopLoss.Some?
                then [Protective(StopLoss, req.side, amount, price, None, FormatPrice(fmt, req.stopLoss))]
                else [];
      var calls := [primary] + tp + sl;
      assert req.takeProfit.Some? ==> calls[1].role == TakeProfit;
      assert req.stopLoss.Some? ==> calls[|calls| - 1].role == StopLoss;
      Trace(calls, Completed)
  }
}
