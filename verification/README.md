# Hyperliquid RSI live bot: decision cycle model

This project models the decision core of a single-asset momentum bot that trades one
perpetual market on Hyperliquid. Each run is one stateless cycle. The bot reads the
balance, the candles and the open position. It picks the last two closed candles and
their RSI values. Then it does one of three things:

- it holds;
- it closes a held position with one reduce-only market order;
- when flat, it sets leverage and margin mode, and may then open a position with a
  market order followed by optional take-profit and stop-loss orders.

The model is written in Dafny. The output of a cycle is an ordered trace of gateway
calls (`seq<Call>`) plus how the cycle ended. All prices and sizes are exact `real`s.

- `base.dfy`: `Option`, order sides, `Abs`.
- `strategy.dfy` (module `Strategy`): the RSI crossing signals, position sizing, the
  long take-profit and stop-loss levels, and the short-side rules. The short-side rules
  are a parameter, because the program leaves them as stubs.
- `client.dfy` (module `Client`): the zero-contract position filter, the `Call`
  datatype and `PlaceMarketOrder`, which expands one order into primary, TP and SL orders.
- `bot.dfy` (module `Bot`): candle selection, the decision branches of the main block,
  the plan of calls, and execution against an exchange that may raise on any call.
- `cycle_properties.dfy` (module `CycleProperties`): properties of whole cycles.

Inputs and environment:

- The exchange's reads are inputs: a `Snapshot` holding the balance, the candles (oldest
  first), the raw position list and the mid price.
- The exchange's precision rules are an uninterpreted `Precision` value, applied only
  when an order is submitted.
- The exchange's answers to state-changing calls are a function `accepts: nat -> bool`.
  `accepts(i)` says whether the i-th call of the cycle returned. A call that raises ends
  the cycle, since the main block catches the exception and exits.
- An undefined RSI value (`None`) stands for the NaN the indicator library produces
  during its warm-up window. A Python comparison with NaN is false, so neither crossing
  fires on it.

Behaviour modelled as the code is written:

- Sizing does not reject a non-positive balance or price. The code computes with them
  as given.
- The short side is not a mirror of the long side. The code's short rules are stubs
  that return `None`, so they are parameters here (`ShortRules`), and `Strategy.Stubs`
  is the program's own version.
- The primary entry order carries the formatted take-profit and stop-loss prices in its
  own parameters. Separate take-profit and stop-loss orders are also placed after it.
  Both are modelled as written.

## Model

| member | source | states |
|---|---|---|
| Base.Opposite | hyperliquid-trading-live-bot.py:248 | the closing side of a protective order always differs from the opening side |
| Base.Abs | hyperliquid-trading-live-bot.py:411 | the exit size is the non-negative magnitude of the signed contract count |
| Strategy.OnThresholdNeverFires | hyperliquid-trading-live-bot.py:326-330 | a current RSI exactly on the threshold fires neither the entry nor the exit |
| Strategy.EntryExitExclusive | hyperliquid-trading-live-bot.py:326-330 | long entry and long exit are never both true for the same pair of candles |
| Strategy.WarmUpNeverFires | hyperliquid-trading-live-bot.py:307-330 | an undefined (NaN) RSI on either candle fires no signal |
| Strategy.ExitMirrorsEntry | hyperliquid-trading-live-bot.py:326-330 | the exit is exactly the upward-crossing entry applied to the negated series and threshold |
| Strategy.NoRepeatedSignal | hyperliquid-trading-live-bot.py:326-330 | a crossing cannot fire on two consecutive candle pairs |
| Strategy.Notional | hyperliquid-trading-live-bot.py:352-353 | the notional times 100 equals balance times the size percentage |
| Strategy.EntryAmount | hyperliquid-trading-live-bot.py:451-452 | an amount exists exactly when the close is non-zero, and amount times close equals the notional |
| Strategy.EntryAmountFormula | hyperliquid-trading-live-bot.py:451-452 | for a non-zero close the amount is balance * pct / 100 / close |
| Strategy.EntryAmountPositive | hyperliquid-trading-live-bot.py:451-452 | positive balance, percentage and close give a positive amount |
| Strategy.LongTakeProfit | hyperliquid-trading-live-bot.py:332-333 | the take-profit level lies tp_pct percent of the price above the price |
| Strategy.LongStopLoss | hyperliquid-trading-live-bot.py:335-336 | the stop-loss level lies sl_pct percent of the price below the price |
| Strategy.LevelsBracketPrice | hyperliquid-trading-live-bot.py:332-336 | with price > 0, tp_pct > 0 and 0 < sl_pct < 100: 0 < SL < price < TP |
| Strategy.SizingExamples | hyperliquid-trading-live-bot.py:332-353 | 1000 at 5% and 2000 gives 0.025; 10000 gives 500 and 0.25; 2000 gives TP 2200 at 10% and SL 1900 at 5% |
| Strategy.Stubs | hyperliquid-trading-live-bot.py:338-349 | the stub short rules never signal and never give a level |
| Client.ActivePositions | hyperliquid-trading-live-bot.py:116-117 | every kept position holds contracts, every reported position that holds contracts is kept, and the first kept one is the first such position |
| Client.ActivePositionsKeepOrder | hyperliquid-trading-live-bot.py:116-117 | the filter is order-preserving and keeps each non-empty position as many times as it was reported |
| Client.CurrentPosition | hyperliquid-trading-live-bot.py:395-396 | no position exactly when every reported position holds zero contracts; otherwise the first non-empty one |
| Client.PlaceMarketOrder | hyperliquid-trading-live-bot.py:204-269 | primary first, then a TP order iff a TP level was given, then an SL order iff an SL level was given; protective orders are reduce-only, opposite-side, with the primary's formatted amount and price; an unformattable amount places nothing |
| Bot.Defaults | hyperliquid-trading-live-bot.py:282-299 | the program's settings: 5% sizing, leverage 1, isolated margin, threshold 70, TP 10%, SL 5%, longs only, exits and both protective orders on |
| Bot.CurrentCandle | hyperliquid-trading-live-bot.py:387 | the current candle is the last closed one: exactly one (still forming) candle follows it |
| Bot.PreviousCandle | hyperliquid-trading-live-bot.py:388 | the previous candle immediately precedes the current one |
| Bot.Lower | hyperliquid-trading-live-bot.py:402 | lower-casing keeps the length, turns each capital letter into its small letter and changes no other character |
| Bot.HeldSide | hyperliquid-trading-live-bot.py:402-417 | a position is long exactly when its lower-cased side is "long", short exactly when it is "short", and neither for every other string |
| Bot.HeldSideIgnoresCase | hyperliquid-trading-live-bot.py:402 | "long", "Long" and "LONG" read as long, "short" and "SHORT" as short, and "both" as neither |
| Bot.HeldSideCaseInsensitive | hyperliquid-trading-live-bot.py:402 | two positions whose side strings differ only in the case of their letters are held on the same side |
| Bot.CloseRequest | hyperliquid-trading-live-bot.py:408-413 | an exit is a reduce-only order on the given side, without levels, for the magnitude of the held contracts, which is positive for an active position |
| Bot.EntryRequest | hyperliquid-trading-live-bot.py:451-462 | an entry is an opening order whose amount times the close is the notional (none for a zero close), with each level dropped exactly when its flag ignores it |
| Bot.Decide | hyperliquid-trading-live-bot.py:398-511 | flat iff the account is prepared; a sell exit iff a held long's exit fires with longs and exits enabled; a buy exit iff the same for shorts; a buy entry iff the long entry fires with longs enabled; a sell entry iff that buy entry does not fire, shorts are enabled and the short entry rule fires; an entry is sized at balance * pct / 100 / close and carries the long levels for a buy, the short rules' levels for a sell, each dropped when ignored |
| Bot.Plan | hyperliquid-trading-live-bot.py:405-511 | every plan has at most one primary order, no account setup after an order, and a primary order before each protective order |
| Bot.ExecuteFrom | hyperliquid-trading-live-bot.py:362-524 | a run is a prefix of the plan; every call but the last was accepted; it is the whole plan iff all calls are accepted, else it ends on the first rejected call |
| Bot.Execute | hyperliquid-trading-live-bot.py:522-524 | the same for a whole cycle, starting at the first call |
| Bot.Cycle | hyperliquid-trading-live-bot.py:387-396 | fewer than three candles stop the cycle before any call; otherwise the calls made are a prefix of the decision's plan |
| CycleProperties.CycleSafety | hyperliquid-trading-live-bot.py:223-485 | in every cycle: at most one primary order (the `elif` of lines 447 and 485), setup only before orders (lines 433-442), and protective orders only after an accepted primary order (lines 223-239) |
| CycleProperties.ZeroContractsTreatedAsFlat | hyperliquid-trading-live-bot.py:116-117 | positions that all hold zero contracts give the same cycle as no position |
| CycleProperties.HeldPositionOnlyExits | hyperliquid-trading-live-bot.py:398-426 | with a position: no setup, at most one reduce-only order for the whole formatted size; a sell iff a long exit is enabled and fires, a buy iff a short exit is enabled and fires |
| CycleProperties.FlatConfiguresFirst | hyperliquid-trading-live-bot.py:428-485 | when flat, set_leverage comes first and then set_margin_mode, and only orders follow; an order is placed only if an enabled entry fires |
| CycleProperties.FlatWithoutSignalOnlyConfigures | hyperliquid-trading-live-bot.py:428-485 | flat with no enabled entry firing: at most the two configuration calls and no order, and exactly those two, completed, when both are accepted |
| CycleProperties.LongEntryHasPriority | hyperliquid-trading-live-bot.py:447-485 | when the long entry fires with longs enabled, every primary order is an opening buy, whatever the short rules say |
| CycleProperties.LongEntryOrder | hyperliquid-trading-live-bot.py:447-473 | the third call is the buy with the computed amount and levels; a TP order follows iff not ignored and the buy was accepted; an SL order follows iff not ignored, the buy was accepted and any TP order was accepted |
| CycleProperties.EntryRun | hyperliquid-trading-live-bot.py:223-239 | after accepted configuration, the third call is the request's primary order; a TP order follows iff the request has a level and the primary was accepted; an SL order iff it has a level and the primary and any TP order were accepted |
| CycleProperties.ShortEntryOrder | hyperliquid-trading-live-bot.py:485-511 | the short entry's third call is the sell with the computed amount and the short rules' levels unless ignored; TP and SL orders follow as for any entry |
| CycleProperties.ZeroCloseStopsBeforeOrder | hyperliquid-trading-live-bot.py:451-490 | when a long or a short entry fires on a zero close, the cycle stops after the two setup calls, before any order |
| CycleProperties.StubShortsNeverTrade | hyperliquid-trading-live-bot.py:338-349 | with the stub short rules no short is opened and a held short is never touched |
| CycleProperties.WorkedExample | hyperliquid-trading-live-bot.py:282-299 | balance 10000, close 2000, RSI crossing 70: exactly leverage, margin mode, buy 0.25, TP sell at 2200 and SL sell at 1900 |
| CycleProperties.DefaultsTradeLongsOnly | hyperliquid-trading-live-bot.py:295-296 | with the program's settings no short is ever opened and a held short is never touched, whatever the short rules |
| CycleProperties.CycleFailsOnlyOnRaise | hyperliquid-trading-live-bot.py:362-524 | a cycle stops early only for too few candles, a zero close, or a gateway call that raised; with every call returning and a non-zero close it completes |
| Bot.CycleAsWritten | hyperliquid-trading-live-bot.py:475-482 | as written, the calls are those of the cycle; only a flat cycle whose entry orders all returned can change its outcome, and it then ends in an error exactly when the market order's result is non-empty and some result from the market order on lacks `resting`, naming the first such result |
| Bot.FirstMissingResting | hyperliquid-trading-live-bot.py:478-482 | finds the first protective result whose `resting` entry is read and missing, and none exactly when every one has it or is empty |
| CycleProperties.FilledEntryEndsInError | hyperliquid-trading-live-bot.py:475-482 | as written, the worked example with a market order reported as filled places all five orders and then ends in an error |

## Left out

- Exchange I/O: client construction, market loading, `fetch_balance`, `fetch_ohlcv`,
  `fetch_positions` and the transport. The values they return are snapshot inputs.
  Their failures (a missing key, a network error) are not modelled. Each of them would
  end the cycle before any state-changing call.
- The mid price. `Snapshot.midPrice` is the `midPx` entry read inside
  `place_market_order` (hyperliquid-trading-live-bot.py:207), from the markets loaded
  when the client was built. A missing or non-numeric entry raises there. When flat
  that happens after `set_leverage` and `set_margin_mode`, so the cycle would end with
  the two configuration calls made and no order. This failure is not modelled: the
  model only stops between the configuration calls and the first order for a zero
  close.
- The RSI computation (`compute_indicators`). It comes from a foreign library and uses
  floating point. The two selected candles' RSI values are inputs.
- `amount_to_precision` and `price_to_precision`. They are exchange-defined, so they are
  kept uninterpreted. A formatter that raises on a finite value is not modelled.
- Floating point in general. The model uses exact reals, so rounding in the size and
  level formulas is not represented.
- A zero close price: under numpy the quotient is an infinity or a NaN, not an
  exception. The model assumes the amount formatter raises on it (`AmountNotFinite`).
  That formatter is not part of this model.
- The DataFrame construction and sorting. The candles are taken as already ordered,
  oldest first. Only the close and the RSI of a candle are kept.
- The symbol, the timeframe and `rsi_length`. They only parameterise I/O and the
  indicator.
- Credential loading, `my_print` output, the wrapping of exceptions into prefixed
  messages, and `exit(1)`. `Completed` means that every gateway call of the cycle
  returned. It does not mean exit status 0: the log lines after an entry can still
  raise (see Findings). `Bot.Cycle` models the intended read-back, which cannot
  fail. `Bot.CycleAsWritten` models the code as written.
- The short-side rule semantics. The program leaves them as stubs, so they are
  parameters here.
- Case folding of the position side: `str.lower()` is modelled on ASCII letters only. The exchange's side
  strings are ASCII.

## Findings

| source | as written | input that shows it | evidently intended | confidence | as-written member | corrected member |
|---|---|---|---|---|---|---|
| hyperliquid-trading-live-bot.py:475-482 (and 513-520) | after the entry orders return, each log line evaluates `orders[...]['resting']` in an f-string, whatever `verbose` is set to | a market order that fills at once, so its result reports `filled` and has no `resting` entry: every order is placed, then a `KeyError` ends the cycle through `exit(1)` | reading back the results is only for logging and should not turn a placed entry into an error exit; a cycle whose gateway calls all return should complete | medium, not executed; depends on the shape of the exchange's order results | Bot.CycleAsWritten, CycleProperties.FilledEntryEndsInError | Bot.Cycle, CycleProperties.CycleFailsOnlyOnRaise |
