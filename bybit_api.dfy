// The Bybit exchange module: turning the positions reply into the records
// the window works with, the KuCoin-style symbol mapping, the close and open
// orders and the 1-hour high/low. The candle analysis is
// `Indicators.DecideVote`, which this module and the KuCoin one share.
module BybitApi {
  import opened Common
  import opened Text
  import opened Indicators

  /** One entry of `result.list`, each field already read as a number; a
      missing field holds the default the source passes to `get`. `liqPrice`
      is `None` when the field is absent or empty. */
  datatype RawPosition = RawPosition(
    symbol: string, side: string, size: real, avgPrice: real, leverage: real,
    unrealisedPnl: real, liqPrice: Option<real>, positionIM: real, markPrice: real,
    curRealisedPnl: real)

  /** The reply of `get_positions`: no `result`/`list`, a `list` that is not
      a list, or the positions (a request that raises counts as `NoList`). */
  datatype PositionsReply = NoList | NotAList | Listed(items: seq<RawPosition>)

  /** The record the window keeps (the KuCoin field names the windows expect).
      `liquidationPrice` is `None` where the source writes 'N/A'. */
  datatype Position = Position(
    symbol: string, avgEntryPrice: real, realLeverage: real, maintMargin: real,
    realisedPnl: real, posMargin: real, unrealisedPnl: real, currentQty: real,
    markPrice: real, liquidationPrice: Option<real>)

  function Normalize(p: RawPosition): (q: Position)
    ensures q.symbol == p.symbol && q.avgEntryPrice == p.avgPrice && q.realLeverage == p.leverage
    ensures q.posMargin == p.positionIM && q.maintMargin == p.positionIM
    ensures q.unrealisedPnl == p.unrealisedPnl && q.markPrice == p.markPrice
    ensures q.realisedPnl == 2.0 * p.curRealisedPnl
    ensures q.liquidationPrice == p.liqPrice
    ensures Abs(q.currentQty) == Abs(p.size)
    ensures p.size > 0.0 ==> (q.currentQty > 0.0 <==> LowerAscii(p.side) == "buy")
  {
    var qty := if LowerAscii(p.side) == "buy" then p.size else -p.size;
    Position(p.symbol, p.avgPrice, p.leverage, p.positionIM, 2.0 * p.curRealisedPnl,
             p.positionIM, p.unrealisedPnl, qty, p.markPrice, p.liqPrice)
  }

  /** `fetch_open_positions`: `None` unless the reply carries a list, and then
      one normalized record per entry, in order. */
  method FetchOpenPositions(reply: PositionsReply) returns (r: Option<seq<Position>>)
    ensures r.None? <==> !reply.Listed?
    ensures reply.Listed? ==> (|r.value| == |reply.items|
      && forall i :: 0 <= i < |reply.items| ==> r.value[i] == Normalize(reply.items[i]))
  {
    if !reply.Listed? {
      return None;
    }
    var adapted: seq<Position> := [];
    var i := 0;
    while i < |reply.items|
      invariant 0 <= i <= |reply.items|
      invariant |adapted| == i
      invariant forall j :: 0 <= j < i ==> adapted[j] == Normalize(reply.items[j])
    {
      adapted := adapted + [Normalize(reply.items[i])];
      i := i + 1;
    }
    return Some(adapted);
  }

  /** The symbol Bybit knows a KuCoin-style symbol by. */
  function BybitSymbol(symbol: string): string {
    DropTrailingM(Replace(symbol, "XBT", "BTC"))
  }

  /** The mapping keeps the length up to one dropped `M`, leaves a symbol
      without "XBT" and without a trailing `M` alone, and turns the default
      KuCoin contract XBTUSDTM into BTCUSDT. */
  lemma BybitSymbolFacts(symbol: string)
    ensures |BybitSymbol(symbol)| == |symbol| || |BybitSymbol(symbol)| == |symbol| - 1
    ensures !Occurs("XBT", symbol) && (symbol == [] || symbol[|symbol| - 1] !in {'M', '\n'})
      ==> BybitSymbol(symbol) == symbol
    ensures BybitSymbol("XBTUSDTM") == "BTCUSDT"
  {
    ReplaceFacts(symbol, "XBT", "BTC");
    var s := "XBTUSDTM";
    assert s[..3] == "XBT";
    var rest := s[3..];
    assert rest == "USDTM";
    ReplaceFacts(rest, "XBT", "BTC");
    assert Replace(s, "XBT", "BTC") == "BTCUSDTM";
  }

  /** The market order that closes a position of signed size `qty`: none for
      an empty position, otherwise the opposite side for the whole size. */
  function CloseOrder(symbol: string, qty: real): (o: Option<Order>)
    ensures o.None? <==> qty == 0.0
    ensures o.Some? ==> (o.value.symbol == BybitSymbol(symbol) && o.value.reduceOnly
      && o.value.size == Abs(qty) && (o.value.side == OrderBuy <==> qty < 0.0))
  {
    if qty == 0.0 then None
    else Some(Order(BybitSymbol(symbol), if qty < 0.0 then OrderBuy else OrderSell, Abs(qty), true))
  }

  /** The close order exactly offsets the position it closes. */
  lemma CloseOrderFlattens(symbol: string, qty: real)
    requires qty != 0.0
    ensures qty + SignedSize(CloseOrder(symbol, qty).value) == 0.0
  {
  }

  /** The market order `open_new_position_market` places. */
  function OpenOrder(symbol: string, side: string, size: real): (o: Order)
    ensures o.symbol == BybitSymbol(symbol) && o.size == size && !o.reduceOnly
    ensures o.side == OrderBuy <==> LowerAscii(side) == "buy"
  {
    Order(BybitSymbol(symbol), if LowerAscii(side) == "buy" then OrderBuy else OrderSell, size, false)
  }

  /** The details, with the upper-cased side and the symbol as the window
      named it, exactly when the exchange's reply carries an `orderId`. */
  function OpenResult(symbol: string, side: string, size: real, leverage: real, hasOrderId: bool): (r: Option<OpenDetails>)
    ensures r.Some? <==> hasOrderId
    ensures r.Some? ==> r.value == OpenDetails(symbol, UpperAscii(side), size, leverage)
  {
    if hasOrderId then Some(OpenDetails(symbol, UpperAscii(side), size, leverage)) else None
  }

  /** The kline reply: no `result`/`list`, or the rows. */
  datatype KlineReply = NoKlines | Klines(rows: seq<Row>)

  predicate HasHighLow(row: Row) { |row| >= 4 }

  /** `fetch_high_low_prices`: over the rows with at least four columns, the
      largest high (column 2) and the smallest low (column 3); `None` when
      there is no such row. */
  method FetchHighLowPrices(reply: KlineReply) returns (r: Option<(real, real)>)
    ensures r.None? <==> !reply.Klines? || forall i :: 0 <= i < |reply.rows| ==> !HasHighLow(reply.rows[i])
    ensures r.Some? ==>
      (exists i :: 0 <= i < |reply.rows| && HasHighLow(reply.rows[i]) && reply.rows[i][2] == r.value.0)
      && (exists i :: 0 <= i < |reply.rows| && HasHighLow(reply.rows[i]) && reply.rows[i][3] == r.value.1)
      && (forall i :: 0 <= i < |reply.rows| && HasHighLow(reply.rows[i]) ==>
            r.value.1 <= reply.rows[i][3] && reply.rows[i][2] <= r.value.0)
  {
    if !reply.Klines? || reply.rows == [] {
      return None;
    }
    var rows := reply.rows;
    var highs: seq<real> := [];
    var lows: seq<real> := [];
    var i := 0;
    while i < |rows|
      invariant 0 <= i <= |rows|
      invariant |highs| == |lows|
      invariant |highs| == 0 <==> forall j :: 0 <= j < i ==> !HasHighLow(rows[j])
      invariant forall x :: x in highs <==> exists j :: 0 <= j < i && HasHighLow(rows[j]) && rows[j][2] == x
      invariant forall x :: x in lows <==> exists j :: 0 <= j < i && HasHighLow(rows[j]) && rows[j][3] == x
    {
      if HasHighLow(rows[i]) {
        highs := highs + [rows[i][2]];
        lows := lows + [rows[i][3]];
      }
      i := i + 1;
    }
    if highs == [] {
      return None;
    }
    var high := Max(highs);
    var low := Min(lows);
    forall j | 0 <= j < |rows| && HasHighLow(rows[j]) ensures low <= rows[j][3] && rows[j][2] <= high {
      assert exists k :: 0 <= k < i && HasHighLow(rows[k]) && rows[k][2] == rows[j][2];
      assert exists k :: 0 <= k < i && HasHighLow(rows[k]) && rows[k][3] == rows[j][3];
      assert rows[j][2] in highs;
      assert rows[j][3] in lows;
    }
    return Some((high, low));
  }
}
