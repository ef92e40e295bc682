// The first KuCoin module: the contract list of the symbol picker and the
// older candle decision (closes read from column 2). Its close order and its
// high/low are the same code as `KucoinApi`'s.
module KucoinOldApi {
  import opened Common
  import opened Indicators
  import KucoinApi

  /** An active futures contract; `markPrice` holds 0 when the field is
      missing, the default the sort key passes to `get`. */
  datatype Contract = Contract(symbol: string, rootSymbol: Option<string>, markPrice: real)

  /** The most contracts the picker lists. */
  const TopCount: nat := 15

  predicate IsUsdt(c: Contract) { c.rootSymbol == Some("USDT") }

  /** `[c for c in data if c.get('rootSymbol') == 'USDT']`. */
  function UsdtOnly(data: seq<Contract>): (r: seq<Contract>)
    ensures forall i :: 0 <= i < |r| ==> IsUsdt(r[i])
    ensures forall c :: multiset(r)[c] == if IsUsdt(c) then multiset(data)[c] else 0
  {
    if data == [] then []
    else
      assert data == [data[0]] + data[1..];
      assert multiset(data) == multiset{data[0]} + multiset(data[1..]);
      if IsUsdt(data[0]) then [data[0]] + UsdtOnly(data[1..]) else UsdtOnly(data[1..])
  }

  predicate SortedDescending(s: seq<Contract>) {
    forall i, j :: 0 <= i < j < |s| ==> s[i].markPrice >= s[j].markPrice
  }

  lemma ConsSorted(x: Contract, t: seq<Contract>)
    requires SortedDescending(t) && (t == [] || t[0].markPrice <= x.markPrice)
    ensures SortedDescending([x] + t)
  {
    var r := [x] + t;
    forall i, j | 0 <= i < j < |r| ensures r[i].markPrice >= r[j].markPrice {
      if i == 0 {
        assert r[j] == t[j - 1];
        assert t[j - 1].markPrice <= t[0].markPrice;
      } else {
        assert r[i] == t[i - 1] && r[j] == t[j - 1];
      }
    }
  }

  /** Puts `c` before the first element whose mark price is not above its own. */
  function Insert(c: Contract, s: seq<Contract>): (r: seq<Contract>)
    requires SortedDescending(s)
    ensures |r| == |s| + 1 && (r[0] == c || (s != [] && r[0] == s[0]))
    ensures SortedDescending(r) && multiset(r) == multiset(s) + multiset{c}
  {
    if s == [] || s[0].markPrice <= c.markPrice then
      ConsSorted(c, s);
      [c] + s
    else
      assert s == [s[0]] + s[1..];
      var rest := Insert(c, s[1..]);
      assert rest[0].markPrice <= s[0].markPrice;
      ConsSorted(s[0], rest);
      [s[0]] + rest
  }

  /** `sort(key=markPrice, reverse=True)`, as an insertion sort that keeps
      contracts of equal price in their original order. */
  function SortByMarkPrice(s: seq<Contract>): (r: seq<Contract>)
    ensures SortedDescending(r) && multiset(r) == multiset(s)
  {
    if s == [] then []
    else
      assert s == [s[0]] + s[1..];
      Insert(s[0], SortByMarkPrice(s[1..]))
  }

  /** The contracts of mark price `p`, in the order they come. */
  function WithPrice(s: seq<Contract>, p: real): seq<Contract> {
    if s == [] then []
    else (if s[0].markPrice == p then [s[0]] else []) + WithPrice(s[1..], p)
  }

  lemma WithPriceCons(x: Contract, t: seq<Contract>, p: real)
    ensures WithPrice([x] + t, p) == (if x.markPrice == p then [x] else []) + WithPrice(t, p)
  {
    assert ([x] + t)[1..] == t;
  }

  lemma SortedTail(s: seq<Contract>)
    requires SortedDescending(s) && s != []
    ensures SortedDescending(s[1..])
  {
    var tail := s[1..];
    forall i, j | 0 <= i < j < |tail| ensures tail[i].markPrice >= tail[j].markPrice {
      assert tail[i] == s[i + 1] && tail[j] == s[j + 1];
    }
  }

  /** A dearer contract in front of both sides keeps `c`'s place among the
      contracts of price `p`. */
  lemma WithPriceBehind(c: Contract, head: Contract, tail: seq<Contract>, rest: seq<Contract>, p: real)
    requires head.markPrice > c.markPrice
    requires WithPrice(rest, p) == (if c.markPrice == p then [c] else []) + WithPrice(tail, p)
    ensures WithPrice([head] + rest, p) == (if c.markPrice == p then [c] else []) + WithPrice([head] + tail, p)
  {
    WithPriceCons(head, rest, p);
    WithPriceCons(head, tail, p);
    if c.markPrice == p {
      assert WithPrice([head] + tail, p) == WithPrice(tail, p);
      assert WithPrice([head] + rest, p) == WithPrice(rest, p);
    } else {
      var first: seq<Contract> := if head.markPrice == p then [head] else [];
      assert WithPrice(rest, p) == WithPrice(tail, p);
      assert WithPrice([head] + rest, p) == first + WithPrice(tail, p);
    }
  }

  /** Inserting puts `c` ahead of every contract of its own price. */
  lemma {:induction false} InsertWithPrice(c: Contract, s: seq<Contract>, p: real)
    requires SortedDescending(s)
    ensures WithPrice(Insert(c, s), p) == (if c.markPrice == p then [c] else []) + WithPrice(s, p)
  {
    if s == [] || s[0].markPrice <= c.markPrice {
      assert Insert(c, s) == [c] + s;
      WithPriceCons(c, s, p);
    } else {
      var tail := s[1..];
      SortedTail(s);
      InsertWithPrice(c, tail, p);
      assert Insert(c, s) == [s[0]] + Insert(c, tail);
      assert s == [s[0]] + tail;
      WithPriceBehind(c, s[0], tail, Insert(c, tail), p);
    }
  }

  /** The sort is stable: contracts of equal mark price keep their order. */
  lemma {:induction false} SortByMarkPriceStable(s: seq<Contract>, p: real)
    ensures WithPrice(SortByMarkPrice(s), p) == WithPrice(s, p)
  {
    if s != [] {
      SortByMarkPriceStable(s[1..], p);
      InsertWithPrice(s[0], SortByMarkPrice(s[1..]), p);
    }
  }

  /** `list_usdt_contracts`. `None` is a failed request, for which the source
      returns the empty list. */
  function ListUsdtContracts(reply: Option<seq<Contract>>): seq<Contract> {
    match reply
    case None => []
    case Some(data) =>
      var sorted := SortByMarkPrice(UsdtOnly(data));
      if |sorted| <= TopCount then sorted else sorted[..TopCount]
  }

  /** The picker lists USDT contracts only, by decreasing mark price, fifteen
      of them or all there are when fewer, and nothing for a failed request. */
  lemma ListUsdtContractsShape(reply: Option<seq<Contract>>)
    ensures var r := ListUsdtContracts(reply);
      SortedDescending(r) && (forall i :: 0 <= i < |r| ==> IsUsdt(r[i]))
      && (reply.None? ==> r == [])
      && (reply.Some? ==> |r| == if |UsdtOnly(reply.value)| <= TopCount then |UsdtOnly(reply.value)| else TopCount)
  {
    if reply.Some? {
      var u := UsdtOnly(reply.value);
      var sorted := SortByMarkPrice(u);
      var r := ListUsdtContracts(reply);
      assert |sorted| == |u| by {
        assert |multiset(sorted)| == |multiset(u)|;
      }
      forall i | 0 <= i < |r| ensures IsUsdt(r[i]) {
        assert r[i] == sorted[i];
        assert sorted[i] in multiset(u);
        var k :| 0 <= k < |u| && u[k] == sorted[i];
      }
    }
  }

  /** Every listed contract was fetched, at most as often as it was fetched. */
  lemma ListUsdtContractsFromReply(data: seq<Contract>)
    ensures multiset(ListUsdtContracts(Some(data))) <= multiset(data)
  {
    var u := UsdtOnly(data);
    var sorted := SortByMarkPrice(u);
    var r := ListUsdtContracts(Some(data));
    assert multiset(r) <= multiset(sorted) by {
      if |sorted| > TopCount {
        assert sorted == sorted[..TopCount] + sorted[TopCount..];
        assert multiset(sorted) == multiset(sorted[..TopCount]) + multiset(sorted[TopCount..]);
      }
    }
    assert multiset(u) <= multiset(data) by {
      forall c | c in multiset(u) ensures multiset(u)[c] <= multiset(data)[c] {
      }
    }
  }

  /** No USDT contract left off the list is dearer than the last one listed. */
  lemma ListUsdtContractsTop(data: seq<Contract>, c: Contract)
    requires c in data && IsUsdt(c) && c !in ListUsdtContracts(Some(data))
    ensures var r := ListUsdtContracts(Some(data)); r != [] && c.markPrice <= r[|r| - 1].markPrice
  {
    var u := UsdtOnly(data);
    var sorted := SortByMarkPrice(u);
    var r := ListUsdtContracts(Some(data));
    assert c in multiset(data);
    assert c in multiset(u);
    assert c in multiset(sorted);
    var k :| 0 <= k < |sorted| && sorted[k] == c;
    assert k >= TopCount;
    assert r[|r| - 1] == sorted[TopCount - 1];
  }

  /** The older `decide_trade_direction` on KuCoin candles, whose column 2 the
      code reads as the close. */
  function DecideTradeDirection(response: Option<seq<Row>>, period: nat,
                                useSma: bool, useRsi: bool, useVolume: bool): Reading<PairAnalysis>
  {
    DecidePairwise(response, period, useSma, useRsi, useVolume, 2)
  }

  /** The decision is the common direction of the enabled signals, wait when
      they disagree or none is enabled, and wait for fewer than 25 candles. */
  lemma DecideTradeDirectionUnanimous(response: Option<seq<Row>>, period: nat,
                                      useSma: bool, useRsi: bool, useVolume: bool)
    ensures var r := DecideTradeDirection(response, period, useSma, useRsi, useVolume);
      (response.Some? && |response.value| < MinCandles ==> r == Insufficient)
      && (r.Computed? ==> r.decision == Unanimous(Enabled(useSma, r.analysis.smaSignal, useRsi, r.analysis.rsiSignal,
                                                          useVolume, r.analysis.volumeSignal)))
      && (!useSma && !useRsi && !useVolume ==> Decision(r) == Wait)
  {
    var r := DecideTradeDirection(response, period, useSma, useRsi, useVolume);
    if r.Computed? {
      PairwiseIsUnanimity(useSma, useRsi, useVolume, r.analysis.smaSignal, r.analysis.rsiSignal, r.analysis.volumeSignal);
    }
  }

  /** The close order is `KucoinApi.CloseOrder`: a reduce-only market order on
      the position's symbol, with the same side and size selection. */
  function CloseOrder(symbol: string, qty: real): (o: Option<Order>)
    ensures o.None? <==> qty == 0.0
    ensures o.Some? ==> o.value.symbol == symbol && o.value.reduceOnly
                        && (o.value.side == OrderBuy <==> qty < 0.0) && o.value.size == Abs(qty)
  {
    KucoinApi.CloseOrder(symbol, qty)
  }
}
