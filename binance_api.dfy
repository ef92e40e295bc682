// The Binance isolated-margin module: the positions derived from the margin
// account, the LOT_SIZE adjustment, the sizing of the loan and the fill price
// of a new position, and the older candle decision.
module BinanceApi {
  import opened Common
  import opened Text
  import opened Indicators

  /** Sizes below this are dust and are not reported as positions. */
  const Dust: real := 0.00001

  /** One entry of `assets` of the isolated margin account, with the price
      `get_current_price` gave for its symbol (0 when that request failed). */
  datatype AssetInfo = AssetInfo(
    symbol: string, netBase: real, borrowedBase: real, borrowedQuote: real,
    interestBase: real, interestQuote: real, currentPrice: real)

  /** What the window's tracker remembers of a symbol's position. */
  datatype Remembered = Remembered(entryPrice: Option<real>, leverage: real, amountUsd: Option<real>)

  /** The leverage assumed for a symbol the window does not track. */
  const DefaultLeverage: real := 10.0

  datatype PositionSide = Long | Short

  datatype Position = Position(
    symbol: string, side: PositionSide, positionSize: real, amountUsd: real,
    entryPrice: Option<real>, currentPrice: real, margin: real, pnl: real,
    pnlPercentage: real, borrowedAmount: real, leverage: real)

  /** Python truthiness of an optional number: present and not zero. */
  predicate Truthy(x: Option<real>) { x.Some? && x.value != 0.0 }

  /** Unrealised profit of a position, zero without an entry or a price. */
  function Pnl(side: PositionSide, entry: Option<real>, price: real, size: real): (p: real)
    ensures !Truthy(entry) || price == 0.0 ==> p == 0.0
  {
    if Truthy(entry) && price != 0.0 then
      (if side == Long then (price - entry.value) * Abs(size) else (entry.value - price) * Abs(size))
    else 0.0
  }

  lemma PositiveFactor(x: real, y: real)
    requires y > 0.0
    ensures x * y > 0.0 <==> x > 0.0
    ensures x * y < 0.0 <==> x < 0.0
  {
    if x > 0.0 {
      assert x * y > 0.0 * y;
    } else if x < 0.0 {
      assert x * y < 0.0 * y;
    }
  }

  /** A long position gains when the price is above the entry, a short one
      when it is below. */
  lemma PnlSign(side: PositionSide, entry: Option<real>, price: real, size: real)
    requires Truthy(entry) && price != 0.0 && size != 0.0
    ensures var p := Pnl(side, entry, price, size);
      (p > 0.0 <==> (if side == Long then price > entry.value else price < entry.value))
      && (p < 0.0 <==> (if side == Long then price < entry.value else price > entry.value))
  {
    if side == Long {
      PositiveFactor(price - entry.value, Abs(size));
    } else {
      PositiveFactor(entry.value - price, Abs(size));
    }
  }

  /** The margin of a position: its cost divided by the leverage, plus the
      interest accrued in both assets. */
  function Margin(entry: Option<real>, leverage: real, size: real, a: AssetInfo): real {
    var initial :=
      if leverage > 1.0 && size != 0.0 && Truthy(entry) then Abs(size) * entry.value / leverage
      else if Truthy(entry) then Abs(size) * entry.value else 0.0;
    initial + (a.interestBase * a.currentPrice + a.interestQuote)
  }

  function PnlPercentage(pnl: real, margin: real): (r: real)
    ensures margin == 0.0 ==> r == 0.0
  {
    if margin != 0.0 then pnl / margin * 100.0 else 0.0
  }

  /** Over a positive margin the percentage has the sign of the profit. */
  lemma PnlPercentageSign(pnl: real, margin: real)
    requires margin > 0.0
    ensures var r := PnlPercentage(pnl, margin); (r > 0.0 <==> pnl > 0.0) && (r < 0.0 <==> pnl < 0.0)
  {
    var x := pnl / margin;
    assert x * margin == pnl;
    PositiveFactor(x, margin);
    PositiveFactor(x, 100.0);
  }

  /** The position reported for an asset that is not dust. */
  function PositionOf(a: AssetInfo, known: Option<Remembered>): Position
  {
    var side := if a.netBase > 0.0 then Long else Short;
    var entry := if known.Some? then known.value.entryPrice else None;
    var leverage := if known.Some? then known.value.leverage else DefaultLeverage;
    var amount := if known.Some? then known.value.amountUsd else None;
    var pnl := Pnl(side, entry, a.currentPrice, a.netBase);
    var margin := Margin(entry, leverage, a.netBase, a);
    var usd := if Truthy(amount) then amount.value
               else if a.currentPrice != 0.0 then Abs(a.netBase) * a.currentPrice else 0.0;
    var borrowed := if side == Long then a.borrowedQuote + a.interestQuote
                    else (a.borrowedBase + a.interestBase) * a.currentPrice;
    Position(a.symbol, side, a.netBase, usd, entry, a.currentPrice, margin, pnl,
             PnlPercentage(pnl, margin), Abs(borrowed), leverage)
  }

  function Lookup(tracked: map<string, Remembered>, symbol: string): Option<Remembered> {
    if symbol in tracked then Some(tracked[symbol]) else None
  }

  /** The positions of the account, in order, dust left out. */
  function Positions(assets: seq<AssetInfo>, tracked: map<string, Remembered>): seq<Position> {
    if assets == [] then []
    else
      var last := assets[|assets| - 1];
      Positions(assets[..|assets| - 1], tracked)
        + (if Abs(last.netBase) >= Dust then [PositionOf(last, Lookup(tracked, last.symbol))] else [])
  }

  /** `fetch_open_positions`; `None` is a failed request, for which the
      source returns the empty list. */
  method FetchOpenPositions(reply: Option<seq<AssetInfo>>, tracked: map<string, Remembered>)
    returns (positions: seq<Position>)
    ensures reply.None? ==> positions == []
    ensures reply.Some? ==> positions == Positions(reply.value, tracked)
  {
    positions := [];
    if reply.None? {
      return;
    }
    var assets := reply.value;
    var i := 0;
    while i < |assets|
      invariant 0 <= i <= |assets|
      invariant positions == Positions(assets[..i], tracked)
    {
      var a := assets[i];
      if Abs(a.netBase) >= Dust {
        positions := positions + [PositionOf(a, Lookup(tracked, a.symbol))];
      }
      assert assets[..i + 1][..i] == assets[..i];
      i := i + 1;
    }
    assert assets[..i] == assets;
  }

  /** Every reported position comes from an asset of at least dust size, in
      the order of the account, with the side given by the sign of the net
      base amount, and every such asset is reported. */
  lemma {:induction false} PositionsFacts(assets: seq<AssetInfo>, tracked: map<string, Remembered>)
    ensures var ps := Positions(assets, tracked);
      |ps| <= |assets|
      && (forall i :: 0 <= i < |ps| ==> (Abs(ps[i].positionSize) >= Dust
            && (ps[i].side == Long <==> ps[i].positionSize > 0.0)
            && ps[i].borrowedAmount >= 0.0))
      && (forall a :: a in assets && Abs(a.netBase) >= Dust ==> PositionOf(a, Lookup(tracked, a.symbol)) in ps)
      && (forall p :: p in ps ==> exists a :: a in assets && Abs(a.netBase) >= Dust && p == PositionOf(a, Lookup(tracked, a.symbol)))
  {
    if assets != [] {
      var init := assets[..|assets| - 1];
      PositionsFacts(init, tracked);
      assert assets == init + [assets[|assets| - 1]];
      assert forall a :: a in assets <==> a in init || a == assets[|assets| - 1];
    }
  }

  /** The LOT_SIZE filter of a symbol. */
  datatype LotSize = LotSize(minQty: real, maxQty: real, stepSize: real)

  /** `adjust_quantity`: clamp to the filter's bounds, or round down to a whole
      number of steps; a step that is not positive makes the logarithm of
      the source fail. */
  function AdjustQuantity(lot: LotSize, q: real): (r: Option<real>)
    ensures q < lot.minQty ==> r == Some(lot.minQty)
    ensures lot.minQty <= q && q > lot.maxQty ==> r == Some(lot.maxQty)
    ensures lot.minQty <= q <= lot.maxQty ==> (r.Some? <==> lot.stepSize > 0.0)
  {
    if q < lot.minQty then Some(lot.minQty)
    else if q > lot.maxQty then Some(lot.maxQty)
    else if lot.stepSize <= 0.0 then None
    else Some((q / lot.stepSize).Floor as real * lot.stepSize)
  }

  lemma MulLe(a: real, b: real, c: real)
    requires a <= b && c >= 0.0
    ensures a * c <= b * c
  {
    assert (b - a) * c >= 0.0;
  }

  lemma MulLt(a: real, b: real, c: real)
    requires a < b && c > 0.0
    ensures a * c < b * c
  {
    PositiveFactor(b - a, c);
  }

  lemma AddOneTimes(f: real, step: real)
    ensures (f + 1.0) * step == f * step + step
  {
  }

  lemma ScaleBounds(lo: real, x: real, step: real, q: real)
    requires step > 0.0 && lo <= x < lo + 1.0 && x * step == q
    ensures lo * step <= q < lo * step + step
  {
    MulLe(lo, x, step);
    MulLt(x, lo + 1.0, step);
    assert x * step < (lo + 1.0) * step;
    AddOneTimes(lo, step);
    assert (lo + 1.0) * step == lo * step + step;
    assert q == x * step;
    assert q < lo * step + step;
  }

  lemma FloorTimesStep(q: real, step: real)
    requires step > 0.0
    ensures var r := (q / step).Floor as real * step; r <= q < r + step
  {
    var x := q / step;
    assert x * step == q;
    ScaleBounds(x.Floor as real, x, step, q);
  }

  /** Inside the bounds the quantity is rounded down to a whole number of
      steps and loses less than one step. */
  lemma AdjustQuantityRoundsDown(lot: LotSize, q: real)
    requires lot.minQty <= q <= lot.maxQty && lot.stepSize > 0.0
    ensures var r := AdjustQuantity(lot, q).value;
      r <= q < r + lot.stepSize && r == (r / lot.stepSize).Floor as real * lot.stepSize
  {
    FloorTimesStep(q, lot.stepSize);
    var f := (q / lot.stepSize).Floor;
    var r := f as real * lot.stepSize;
    assert AdjustQuantity(lot, q).value == r;
    var y := r / lot.stepSize;
    assert y * lot.stepSize == r;
    assert (y - f as real) * lot.stepSize == 0.0;
    PositiveFactor(y - f as real, lot.stepSize);
    assert y == f as real;
    assert y.Floor == f;
    assert (r / lot.stepSize).Floor as real * lot.stepSize == r;
  }

  /** When the minimum is itself a whole number of steps, as the exchange
      publishes its filters, the adjusted quantity always lies within the
      bounds. */
  lemma AdjustQuantityWithinBounds(lot: LotSize, q: real, m: int)
    requires lot.stepSize > 0.0 && lot.minQty == m as real * lot.stepSize && lot.minQty <= lot.maxQty
    ensures AdjustQuantity(lot, q).Some?
    ensures lot.minQty <= AdjustQuantity(lot, q).value <= lot.maxQty
  {
    if lot.minQty <= q <= lot.maxQty {
      FloorTimesStep(q, lot.stepSize);
      var f := (q / lot.stepSize).Floor;
      assert m as real * lot.stepSize <= q;
      assert m as real <= q / lot.stepSize;
      assert m <= f;
      assert m as real * lot.stepSize <= f as real * lot.stepSize;
    }
  }

  datatype Fill = Fill(price: real, qty: real)

  function SumQty(fills: seq<Fill>): real {
    if fills == [] then 0.0 else SumQty(fills[..|fills| - 1]) + fills[|fills| - 1].qty
  }

  function SumCost(fills: seq<Fill>): real {
    if fills == [] then 0.0
    else SumCost(fills[..|fills| - 1]) + fills[|fills| - 1].price * fills[|fills| - 1].qty
  }

  /** The entry price of a filled market order: the quantity-weighted mean of
      the fills, or the quote spent over the quantity executed when the reply
      lists no fills; a zero divisor makes the source raise. */
  function EntryPrice(fills: seq<Fill>, cumulativeQuote: real, executedQty: real): Option<real> {
    if fills != [] then
      (if SumQty(fills) == 0.0 then None else Some(SumCost(fills) / SumQty(fills)))
    else if executedQty == 0.0 then None
    else Some(cumulativeQuote / executedQty)
  }

  lemma {:induction false} CostBounds(fills: seq<Fill>, lo: real, hi: real)
    requires forall i :: 0 <= i < |fills| ==> lo <= fills[i].price <= hi && fills[i].qty > 0.0
    ensures lo * SumQty(fills) <= SumCost(fills) <= hi * SumQty(fills)
    ensures fills != [] ==> SumQty(fills) > 0.0
  {
    if fills != [] {
      var init := fills[..|fills| - 1];
      var f := fills[|fills| - 1];
      CostBounds(init, lo, hi);
      var q0, c0 := SumQty(init), SumCost(init);
      var pq := f.price * f.qty;
      assert SumQty(fills) == q0 + f.qty;
      assert SumCost(fills) == c0 + pq;
      MulLe(lo, f.price, f.qty);
      MulLe(f.price, hi, f.qty);
      Distribute(lo, q0, f.qty);
      Distribute(hi, q0, f.qty);
    }
  }

  lemma Distribute(a: real, b: real, c: real)
    ensures a * (b + c) == a * b + a * c
  {
  }

  /** With fills of positive quantity, the entry price lies between the
      cheapest and the dearest fill. */
  lemma EntryPriceBetweenFills(fills: seq<Fill>, cumulativeQuote: real, executedQty: real, lo: real, hi: real)
    requires fills != []
    requires forall i :: 0 <= i < |fills| ==> lo <= fills[i].price <= hi && fills[i].qty > 0.0
    ensures EntryPrice(fills, cumulativeQuote, executedQty).Some?
    ensures lo <= EntryPrice(fills, cumulativeQuote, executedQty).value <= hi
  {
    CostBounds(fills, lo, hi);
    var q := SumQty(fills);
    var c := SumCost(fills);
    assert lo * q <= c;
    assert lo <= c / q by {
      assert (c / q) * q == c;
    }
    assert c / q <= hi by {
      assert (c / q) * q == c;
    }
  }

  datatype BorrowAsset = BorrowQuote | BorrowBase

  /** What is borrowed before the order, and the quantity then ordered. */
  datatype Borrow = Borrow(asset: BorrowAsset, amount: real, quantity: real)

  /** The loan the position wants: the extra quote for a buy, the extra base
      for anything else. */
  function DesiredLoan(side: string, usd: real, leverage: real, quantity: real): real {
    if UpperAscii(side) == "BUY" then usd * (leverage - 1.0) else quantity * (leverage - 1.0)
  }

  /** The borrow step of `open_new_position_market`: the desired loan capped
      at what the exchange allows; a sale that hits the cap shrinks its
      quantity to what the capped loan covers. `None` when the allowance is
      unknown or zero, or when a shrunk quantity cannot be computed. */
  function PlanBorrow(side: string, usd: real, leverage: real, quantity: real,
                      maxBorrowable: Option<real>, lot: LotSize): (r: Option<Borrow>)
    ensures maxBorrowable.None? || maxBorrowable == Some(0.0) ==> r.None?
    ensures r.Some? ==> (r.value.amount <= maxBorrowable.value
      && (r.value.amount == if DesiredLoan(side, usd, leverage, quantity) > maxBorrowable.value
                            then maxBorrowable.value else DesiredLoan(side, usd, leverage, quantity))
      && (r.value.asset == BorrowQuote <==> UpperAscii(side) == "BUY"))
    ensures r.Some? && (UpperAscii(side) != "SELL" || DesiredLoan(side, usd, leverage, quantity) <= maxBorrowable.value)
      ==> r.value.quantity == quantity
  {
    var asset := if UpperAscii(side) == "BUY" then BorrowQuote else BorrowBase;
    var desired := DesiredLoan(side, usd, leverage, quantity);
    match maxBorrowable
    case None => None
    case Some(allowed) =>
      if allowed == 0.0 then None
      else if desired <= allowed then Some(Borrow(asset, desired, quantity))
      else if UpperAscii(side) != "SELL" then Some(Borrow(asset, allowed, quantity))
      else if leverage - 1.0 == 0.0 then None
      else
        match AdjustQuantity(lot, allowed / (leverage - 1.0))
        case None => None
        case Some(q) => Some(Borrow(asset, allowed, q))
  }

  /** What the exchange answered to the market order: `None` for a rejected
      order, otherwise its fills. */
  datatype OrderReply = OrderReply(fills: seq<Fill>, cumulativeQuote: real, executedQty: real)

  /** The record `open_new_position_market` hands back to the window. */
  datatype OpenedPosition = OpenedPosition(symbol: string, side: string, amountUsd: real,
                                     entryPrice: real, leverage: real, quantity: real)

  /** `open_new_position_market` over the answers of the exchange: the
      price (0 when it could not be read), the LOT_SIZE filter, the loan
      allowance, whether the loan was granted and the order reply. */
  function OpenNewPositionMarket(symbol: string, side: string, usd: real, leverage: real,
                                 price: real, lot: Option<LotSize>, maxBorrowable: Option<real>,
                                 loanGranted: bool, order: Option<OrderReply>): (r: Option<OpenedPosition>)
    ensures r.Some? ==> (price != 0.0 && lot.Some? && maxBorrowable.Some? && maxBorrowable.value != 0.0 && order.Some?)
    ensures r.Some? ==> (r.value.symbol == symbol && r.value.side == UpperAscii(side)
      && r.value.amountUsd == usd && r.value.leverage == leverage)
    ensures r.Some? <==> (price != 0.0 && lot.Some? && AdjustQuantity(lot.value, usd * leverage / price).Some?
      && var plan := PlanBorrow(side, usd, leverage, AdjustQuantity(lot.value, usd * leverage / price).value,
                                maxBorrowable, lot.value);
         plan.Some? && (plan.value.amount > 0.0 ==> loanGranted) && order.Some?
         && EntryPrice(order.value.fills, order.value.cumulativeQuote, order.value.executedQty).Some?)
    ensures r.Some? ==>
      r.value.entryPrice == EntryPrice(order.value.fills, order.value.cumulativeQuote, order.value.executedQty).value
      && r.value.quantity == PlanBorrow(side, usd, leverage, AdjustQuantity(lot.value, usd * leverage / price).value,
                                        maxBorrowable, lot.value).value.quantity
  {
    if price == 0.0 || lot.None? then None
    else
      match AdjustQuantity(lot.value, usd * leverage / price)
      case None => None
      case Some(qty) =>
        match PlanBorrow(side, usd, leverage, qty, maxBorrowable, lot.value)
        case None => None
        case Some(loan) =>
          if loan.amount > 0.0 && !loanGranted then None
          else
            match order
            case None => None
            case Some(reply) =>
              match EntryPrice(reply.fills, reply.cumulativeQuote, reply.executedQty)
              case None => None
              case Some(entry) => Some(OpenedPosition(symbol, UpperAscii(side), usd, entry, leverage, loan.quantity))
  }

  /** The position handed back is priced between the cheapest and the
      dearest fill, and, unless a capped sale shrank it, its quantity is the
      requested quantity rounded down to whole LOT_SIZE steps. */
  lemma OpenedPositionFacts(symbol: string, side: string, usd: real, leverage: real,
                            price: real, lot: Option<LotSize>, maxBorrowable: Option<real>,
                            loanGranted: bool, order: Option<OrderReply>, lo: real, hi: real)
    requires OpenNewPositionMarket(symbol, side, usd, leverage, price, lot, maxBorrowable, loanGranted, order).Some?
    ensures var r := OpenNewPositionMarket(symbol, side, usd, leverage, price, lot, maxBorrowable, loanGranted, order).value;
      var fills := order.value.fills;
      fills != [] && (forall i :: 0 <= i < |fills| ==> lo <= fills[i].price <= hi && fills[i].qty > 0.0) ==>
        lo <= r.entryPrice <= hi
    ensures var r := OpenNewPositionMarket(symbol, side, usd, leverage, price, lot, maxBorrowable, loanGranted, order).value;
      var q := usd * leverage / price; var l := lot.value;
      var desired := DesiredLoan(side, usd, leverage, AdjustQuantity(l, q).value);
      l.minQty <= q <= l.maxQty && l.stepSize > 0.0 && (UpperAscii(side) != "SELL" || desired <= maxBorrowable.value) ==>
        r.quantity <= q < r.quantity + l.stepSize && r.quantity == (r.quantity / l.stepSize).Floor as real * l.stepSize
  {
    var r := OpenNewPositionMarket(symbol, side, usd, leverage, price, lot, maxBorrowable, loanGranted, order).value;
    var reply := order.value;
    var fills := reply.fills;
    if fills != [] && (forall i :: 0 <= i < |fills| ==> lo <= fills[i].price <= hi && fills[i].qty > 0.0) {
      EntryPriceBetweenFills(fills, reply.cumulativeQuote, reply.executedQty, lo, hi);
    }
    var q := usd * leverage / price;
    var l := lot.value;
    if l.minQty <= q <= l.maxQty && l.stepSize > 0.0 {
      AdjustQuantityRoundsDown(l, q);
    }
  }

  /** The older `decide_trade_direction` on Binance candles (close in column 4). */
  function DecideTradeDirection(response: Option<seq<Row>>, period: nat,
                                useSma: bool, useRsi: bool, useVolume: bool): Reading<PairAnalysis>
  {
    DecidePairwise(response, period, useSma, useRsi, useVolume, 4)
  }

  /** On high volume the volume signal follows the last move of the close,
      and it is wait otherwise; the decision is the common direction of the
      enabled signals. */
  lemma DecideTradeDirectionFacts(response: Option<seq<Row>>, period: nat,
                                  useSma: bool, useRsi: bool, useVolume: bool)
    ensures var r := DecideTradeDirection(response, period, useSma, useRsi, useVolume);
      (response.Some? && |response.value| < MinCandles ==> r == Insufficient)
      && (r.Computed? ==> var a := r.analysis; var closes := Column(response.value, 4);
            (a.currentVolume <= a.averageVolume ==> a.volumeSignal == Wait)
            && (a.currentVolume > a.averageVolume ==>
                  (a.volumeSignal == Buy <==> closes[|closes| - 1] > closes[|closes| - 2])
                  && (a.volumeSignal == Sell <==> closes[|closes| - 1] < closes[|closes| - 2]))
            && r.decision == Unanimous(Enabled(useSma, a.smaSignal, useRsi, a.rsiSignal, useVolume, a.volumeSignal)))
  {
    var r := DecideTradeDirection(response, period, useSma, useRsi, useVolume);
    if r.Computed? {
      PairwiseIsUnanimity(useSma, useRsi, useVolume, r.analysis.smaSignal, r.analysis.rsiSignal, r.analysis.volumeSignal);
    }
  }
}
