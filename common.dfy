// Values shared by every module of the model.
module Common {

  /** A value that may be missing: Python's `None` next to a real value. */
  datatype Option<T> = None | Some(value: T)

  function Abs(x: real): real {
    if x < 0.0 then -x else x
  }

  datatype OrderSide = OrderBuy | OrderSell

  /** A market order as the bots send it to an exchange. */
  datatype Order = Order(symbol: string, side: OrderSide, size: real, reduceOnly: bool)

  /** The change an order makes to a signed position size. */
  function SignedSize(o: Order): real {
    if o.side == OrderBuy then o.size else -o.size
  }

  /** The record `open_new_position_market` hands back to the window on the
      KuCoin and Bybit bots. */
  datatype OpenDetails = OpenDetails(symbol: string, side: string, size: real, leverage: real)

  /** Appending to a log is associative; the ticks' order logs grow one
      visit at a time. */
  lemma AppendAssociative<T>(a: seq<T>, b: seq<T>, c: seq<T>)
    ensures (a + b) + c == a + (b + c)
  {
  }
}
