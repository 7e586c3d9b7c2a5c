/**
 * Order intents that one call of the strategy's `next` hands to the
 * backtesting engine: what `buy`, `sell` and `close` are asked to do.
 * Whether an intent is filled, rejected or cancelled is the engine's
 * business and is not modelled.
 */
module Orders {

  datatype Option<+T> = None | Some(value: T)

  datatype Side = Buy | Sell

  /** How the engine is asked to execute an order; `Close` is `Strategy.close()`. */
  datatype ExecType = Market | Limit(price: real) | Stop(price: real) | Close

  datatype Order = Order(side: Side, size: int, exec: ExecType)

  function Opposite(side: Side): (r: Side)
    ensures r != side
  {
    match side
    case Buy => Sell
    case Sell => Buy
  }

  /** The side on which an order for the whole position brings it back to flat. */
  function ClosingSide(position: int): (r: Side)
    requires position != 0
    ensures position + Signed(Order(r, Abs(position), Market)) == 0
  {
    if position > 0 then Sell else Buy
  }

  /** The change an order makes to the signed position if it is filled in full. */
  function Signed(o: Order): int
  {
    if o.side == Buy then o.size else -o.size
  }

  function Abs(x: int): nat
  {
    if x < 0 then -x else x
  }
}
