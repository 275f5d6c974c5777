/**
  Values shared by the strategy rules, the exchange client and the decision cycle.
 */
module Base {

  /** A value that may be absent; stands for Python's `None`. */
  datatype Option<+T> = None | Some(value: T)

  /** The side of an order: the strings "buy" and "sell" of the exchange API. */
  datatype Side = Buy | Sell

  /** The side that closes a position opened on `s`. */
  function Opposite(s: Side): (r: Side)
    ensures r != s
  {
    if s == Buy then Sell else Buy
  }

  /** Python's `abs` on a float. */
  function Abs(x: real): (r: real)
    ensures r >= 0.0
    ensures r == x || r == -x
  {
    if x < 0.0 then -x else x
  }
}
