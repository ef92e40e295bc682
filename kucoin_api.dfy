// The KuCoin futures module: the close order, the open result and the
// 1-hour high/low. Its candle analysis is `Indicators.DecideVote`, the same
// code as the Bybit module's.
module KucoinApi {
  import opened Common
  import opened Text
  import opened Indicators

  /** The market order that closes a position of signed size `qty`: none for
      an empty position, otherwise the opposite side for the whole size. */
  function CloseOrder(symbol: string, qty: real): (o: Option<Order>)
    ensures o.None? <==> qty == 0.0
    ensures o.Some? ==> (o.value.symbol == symbol && o.value.reduceOnly
      && o.value.size == Abs(qty) && (o.value.side == OrderBuy <==> qty < 0.0))
  {
    if qty == 0.0 then None
    else Some(Order(symbol, if qty < 0.0 then OrderBuy else OrderSell, Abs(qty), true))
  }

  /** Closing flattens the position, and the order never grows it. */
  lemma CloseOrderFlattens(symbol: string, qty: real)
    requires qty != 0.0
    ensures qty + SignedSize(CloseOrder(symbol, qty).value) == 0.0
    ensures Abs(qty + SignedSize(CloseOrder(symbol, qty).value)) < Abs(qty)
  {
  }

  /** The details, with the upper-cased side, exactly on HTTP 200 or 201. */
  function OpenResult(symbol: string, side: string, size: real, leverage: real, status: int): (r: Option<OpenDetails>)
    ensures r.Some? <==> status == 200 || status == 201
    ensures r.Some? ==> r.value == OpenDetails(symbol, UpperAscii(side), size, leverage)
  {
    if status in {200, 201} then Some(OpenDetails(symbol, UpperAscii(side), size, leverage)) else None
  }

  /** `fetch_high_low_prices`: the largest of column 3 and the smallest of
      column 4 over all rows. `None` stands for a failed request; a row
      without those columns makes the comprehension raise, and an empty
      `data` gives no answer either. */
  function FetchHighLowPrices(reply: Option<seq<Row>>): (r: Option<(real, real)>)
    ensures r.Some? <==> reply.Some? && |reply.value| > 0 && Wide(reply.value, 5)
    ensures r.Some? ==> var rows := reply.value;
      (exists i :: 0 <= i < |rows| && rows[i][3] == r.value.0)
      && (exists i :: 0 <= i < |rows| && rows[i][4] == r.value.1)
      && (forall i :: 0 <= i < |rows| ==> rows[i][3] <= r.value.0 && r.value.1 <= rows[i][4])
  {
    match reply
    case None => None
    case Some(rows) =>
      if !Wide(rows, 5) || rows == [] then None
      else
        var highs := Column(rows, 3);
        var lows := Column(rows, 4);
        var high := Max(highs);
        var low := Min(lows);
        assert forall i :: 0 <= i < |rows| ==> highs[i] == rows[i][3] && lows[i] == rows[i][4];
        Some((high, low))
  }
}
