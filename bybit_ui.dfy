// The Bybit window: the tracker map behind the trailing stop, the tick that
// closes positions, the reconciliation with each poll, the debounce that
// starts the signal monitor, the monitor's confirm-after-a-wait rule, the
// ignore lists and the price alerts.
module BybitUi {
  import opened Common
  import opened Text
  import opened Indicators
  import BybitApi
  import Risk
  import Control

  datatype TradeDirection = Both | OnlyBuy | OnlySell

  /** The absolute stop price field: empty, text `float` rejects, or a price. */
  datatype StopTarget = NoTarget | Unparsable | Target(price: real)

  /** The settings the window reads. */
  datatype Config = Config(
    defaultStopLoss: real, stopLossPrice: StopTarget, autoCalcTrailingStop: bool,
    trailing1To15: real, trailing16To30: real, trailing31To50: real, trailingAbove50: real,
    autoClose: bool, autoOpen: bool, ignoreSl: seq<string>, ignoreTp: seq<string>,
    selectedSymbol: string, leverage: real, contractQty: real, direction: TradeDirection,
    alertAbove: real, alertBelow: real,
    rsiPeriod: nat, useSma: bool, useRsi: bool, useVolume: bool, useHighLow: bool)

  /** The fields `check_parameters_changes` reads, parsed. */
  datatype Settings = Settings(
    leverage: real, defaultStopLoss: real, stopLossPrice: StopTarget, autoCalcTrailingStop: bool,
    trailing1To15: real, trailing16To30: real, trailing31To50: real, trailingAbove50: real,
    alertAbove: real, alertBelow: real, contractQty: real, rsiPeriod: nat)

  /** A tracker's position: a polled record, or the details of a position
      the monitor has just opened (which carry no margin or profit fields). */
  datatype Tracked = Polled(p: BybitApi.Position) | Opened(d: OpenDetails)

  datatype Field = PosMargin | UnrealisedPnl | RealLeverage | AvgEntryPrice | CurrentQty | MaintMargin

  /** `position.get(field, default)`. */
  function Get(t: Tracked, f: Field, default: real): real {
    match t
    case Opened(_) => default
    case Polled(p) =>
      match f
      case PosMargin => p.posMargin
      case UnrealisedPnl => p.unrealisedPnl
      case RealLeverage => p.realLeverage
      case AvgEntryPrice => p.avgEntryPrice
      case CurrentQty => p.currentQty
      case MaintMargin => p.maintMargin
  }

  function SymbolOf(t: Tracked): string {
    match t
    case Polled(p) => p.symbol
    case Opened(d) => d.symbol
  }

  datatype Tracker = Tracker(position: Tracked, maxPnlPercent: real, triggerStopLossPercent: real, usedMarginCalls: int)

  /** The fee the window charges against the profit: 0.06% twice, per unit
      of leverage. */
  const FeePercentPerLeverage: real := 0.12

  /** The profit percentage of the tick; `None` for a zero margin, which the
      tick skips (a missing margin counts as 1). */
  function TickPnl(t: Tracked): Option<real> {
    var margin := Get(t, PosMargin, 1.0);
    if margin == 0.0 then None
    else Some(Get(t, UnrealisedPnl, 0.0) / margin * 100.0 - FeePercentPerLeverage * Get(t, RealLeverage, 0.0))
  }

  /** The profit percentage the table shows, 0 for a zero margin. */
  function DisplayPnl(p: BybitApi.Position): real {
    if p.posMargin != 0.0 then p.unrealisedPnl / p.posMargin * 100.0 - FeePercentPerLeverage * p.realLeverage
    else 0.0
  }

  /** The level the manual band table gives. */
  function ManualStop(c: Config, pnl: real, leverage: real): real {
    var d := c.defaultStopLoss;
    if 0.5 <= pnl <= 3.0 && leverage >= 20.0 then d
    else if 4.0 <= pnl < 5.0 then 2.0
    else if 5.0 <= pnl <= 15.9 then
      (if pnl - c.trailing1To15 > 2.0 && pnl > 0.0 && pnl - c.trailing1To15 > d then pnl - c.trailing1To15 else d)
    else if 16.0 <= pnl <= 30.0 then pnl - c.trailing16To30
    else if 31.0 <= pnl <= 50.0 then pnl - c.trailing31To50
    else if pnl > 50.0 then pnl - c.trailingAbove50
    else d
  }

  /** The level of the automatic mode: half the profit from 1% on. */
  function AutoStop(c: Config, pnl: real): real {
    if pnl >= 1.0 then pnl * 0.5 else c.defaultStopLoss
  }

  function CalculatedStop(c: Config, pnl: real, leverage: real): real {
    if c.autoCalcTrailingStop then AutoStop(c, pnl) else ManualStop(c, pnl, leverage)
  }

  /** The manual table band by band, including the ranges it leaves to the
      default: below 0.5%, [0.5, 3] at leverage under 20, (3, 4), (15.9, 16)
      and (30, 31). */
  lemma ManualStopBands(c: Config, pnl: real, leverage: real)
    ensures var s := ManualStop(c, pnl, leverage); var d := c.defaultStopLoss;
      (pnl < 0.5 ==> s == d)
      && (0.5 <= pnl <= 3.0 ==> s == d)
      && (3.0 < pnl < 4.0 ==> s == d)
      && (4.0 <= pnl < 5.0 ==> s == 2.0)
      && (5.0 <= pnl <= 15.9 ==> s == if pnl - c.trailing1To15 > 2.0 && pnl - c.trailing1To15 > d then pnl - c.trailing1To15 else d)
      && (15.9 < pnl < 16.0 ==> s == d)
      && (16.0 <= pnl <= 30.0 ==> s == pnl - c.trailing16To30)
      && (30.0 < pnl < 31.0 ==> s == d)
      && (31.0 <= pnl <= 50.0 ==> s == pnl - c.trailing31To50)
      && (pnl > 50.0 ==> s == pnl - c.trailingAbove50)
  {
  }

  /** At a loss both modes fall back to the default level. */
  lemma LossGivesDefaultStop(c: Config, pnl: real, leverage: real)
    requires pnl < 0.0
    ensures CalculatedStop(c, pnl, leverage) == c.defaultStopLoss
  {
  }

  /** With a negative default and positive trailing distances the level
      always lies below the profit it was computed from, so a fresh level
      alone never closes a position in profit (from 0.5%). */
  lemma StopTrailsProfit(c: Config, pnl: real, leverage: real)
    requires c.defaultStopLoss < 0.5 && c.trailing1To15 > 0.0 && c.trailing16To30 > 0.0
    requires c.trailing31To50 > 0.0 && c.trailingAbove50 > 0.0
    requires pnl >= 0.5
    ensures CalculatedStop(c, pnl, leverage) < pnl
  {
  }

  /** Whether the absolute stop price is hit: for a long, a target at or
      above the entry is a take-profit reached from below and one under the
      entry a stop reached from above; mirrored for a short. */
  function StopPriceHit(qty: real, entry: real, target: real, price: real): bool {
    if qty > 0.0 then (if target >= entry then price >= target else price <= target)
    else (if target <= entry then price <= target else price >= target)
  }

  /** A hit above the entry of a long (below the entry of a short) only
      happens in profit, one on the other side only at a loss. */
  lemma StopPriceHitSide(qty: real, entry: real, target: real, price: real)
    requires StopPriceHit(qty, entry, target, price)
    ensures qty > 0.0 && target >= entry ==> price >= entry
    ensures qty > 0.0 && target < entry ==> price < entry
    ensures qty <= 0.0 && target <= entry ==> price <= entry
    ensures qty <= 0.0 && target > entry ==> price > entry
  {
  }

  /** `any(coin and symbol.startswith(coin) for coin in list)`. */
  predicate Ignored(list: seq<string>, symbol: string) {
    exists i :: 0 <= i < |list| && list[i] != [] && list[i] <= symbol
  }

  /** The ignore check of the tick, as the loop the source runs. */
  method IsIgnored(list: seq<string>, symbol: string) returns (ignored: bool)
    ensures ignored <==> exists i :: 0 <= i < |list| && list[i] != [] && list[i] <= symbol
  {
    ignored := false;
    var i := 0;
    while i < |list|
      invariant 0 <= i <= |list|
      invariant ignored <==> exists j :: 0 <= j < i && list[j] != [] && list[j] <= symbol
    {
      if list[i] != [] && list[i] <= symbol {
        ignored := true;
      }
      i := i + 1;
    }
  }

  /** For a parsed list the emptiness test is moot: the symbol is ignored
      exactly when one of the typed coins is a prefix of it. */
  lemma IgnoredParsed(text: string, symbol: string)
    ensures Ignored(ParseList(text), symbol) <==> exists e :: e in ParseList(text) && e <= symbol
  {
    var list := ParseList(text);
    ParseListEntries(text);
    if exists e :: e in list && e <= symbol {
      var e :| e in list && e <= symbol;
      var i :| 0 <= i < |list| && list[i] == e;
      assert list[i] != [];
    }
    if Ignored(list, symbol) {
      var i :| 0 <= i < |list| && list[i] != [] && list[i] <= symbol;
      assert list[i] in list;
    }
  }

  /** What the tick decides for one tracker. `Closed` carries whether the
      close came from the percentage stop, after which the window asks for
      a new entry. */
  datatype Verdict = Skipped | Kept(tracker: Tracker) | Closed(tracker: Tracker, reopen: bool)

  function Evaluate(c: Config, price: real, symbol: string, t: Tracker): Verdict {
    match TickPnl(t.position)
    case None => Skipped
    case Some(pnl) =>
      var lev := Get(t.position, RealLeverage, 0.0);
      var trigger := Risk.Ratchet(t.triggerStopLossPercent, CalculatedStop(c, pnl, lev), pnl);
      var u := t.(triggerStopLossPercent := trigger, maxPnlPercent := Risk.WaterMark(t.maxPnlPercent, pnl));
      if c.stopLossPrice.Target?
         && StopPriceHit(Get(t.position, CurrentQty, 0.0), Get(t.position, AvgEntryPrice, 0.0), c.stopLossPrice.price, price)
      then (if c.autoClose then Closed(u, false) else Kept(u))
      else if c.autoClose && pnl <= trigger
              && !(if pnl >= 0.0 then Ignored(c.ignoreTp, symbol) else Ignored(c.ignoreSl, symbol))
      then Closed(u, true)
      else Kept(u)
  }

  /** The tick skips a zero margin; otherwise the trigger ratchets and the
      water mark moves whatever is decided, and a position closes exactly
      when auto-close is on and either the stop price is hit, or the profit
      fell to the trigger and the side's ignore list does not cover the
      symbol. Only the percentage stop asks for a new entry. */
  lemma EvaluateFacts(c: Config, price: real, symbol: string, t: Tracker)
    ensures Evaluate(c, price, symbol, t).Skipped? <==> Get(t.position, PosMargin, 1.0) == 0.0
    ensures match TickPnl(t.position)
      case None => true
      case Some(pnl) =>
        var v := Evaluate(c, price, symbol, t);
        var hit := c.stopLossPrice.Target?
          && StopPriceHit(Get(t.position, CurrentQty, 0.0), Get(t.position, AvgEntryPrice, 0.0), c.stopLossPrice.price, price);
        var ignored := if pnl >= 0.0 then Ignored(c.ignoreTp, symbol) else Ignored(c.ignoreSl, symbol);
        !v.Skipped?
        && (pnl >= 0.0 ==> (v.tracker.triggerStopLossPercent >= t.triggerStopLossPercent
              && v.tracker.maxPnlPercent >= t.maxPnlPercent && v.tracker.maxPnlPercent >= pnl))
        && (pnl < 0.0 ==> v.tracker.triggerStopLossPercent == c.defaultStopLoss && v.tracker.maxPnlPercent == pnl)
        && v.tracker.position == t.position && v.tracker.usedMarginCalls == t.usedMarginCalls
        && (v.Closed? <==> c.autoClose && (hit || (pnl <= v.tracker.triggerStopLossPercent && !ignored)))
        && (v.Closed? ==> (v.reopen <==> !hit))
  {
    match TickPnl(t.position)
    case None =>
    case Some(pnl) =>
      var lev := Get(t.position, RealLeverage, 0.0);
      Risk.RatchetFacts(t.triggerStopLossPercent, CalculatedStop(c, pnl, lev), pnl);
      Risk.WaterMarkFacts(t.maxPnlPercent, pnl);
  }

  /** The tracker map after a tick: closed positions gone, the others with
      their ratcheted trigger and water mark. */
  function AfterTick(c: Config, price: real, m: map<string, Tracker>): map<string, Tracker> {
    map k | k in m && !Evaluate(c, price, k, m[k]).Closed? ::
      match Evaluate(c, price, k, m[k])
      case Skipped => m[k]
      case Kept(u) => u
      case Closed(u, _) => u
  }

  /** The verdict of every tracker of the tick's copy. */
  function Verdicts(c: Config, price: real, m: map<string, Tracker>): map<string, Verdict> {
    map k | k in m :: Evaluate(c, price, k, m[k])
  }

  /** Whether the tick, given the verdicts `vs`, has the close of `k` sent. */
  predicate Sends(c: Config, m: map<string, Tracker>, vs: map<string, Verdict>, k: string) {
    k in m && k in vs && vs[k].Closed? && WrapperSends(c, m[k].position)
  }

  /** A tracker during the tick: as in the copy until visited, then as
      its verdict left it. */
  function Visited(m: map<string, Tracker>, vs: map<string, Verdict>, todo: set<string>, k: string): Tracker
    requires k in m && k in vs
  {
    if k in todo then m[k]
    else match vs[k]
         case Skipped => m[k]
         case Kept(u) => u
         case Closed(u, _) => u
  }

  /** The tracker map part way through the tick, with `todo` still to
      visit: the visited trackers whose close was sent are gone. */
  function TickTrackers(c: Config, m: map<string, Tracker>, vs: map<string, Verdict>, todo: set<string>): map<string, Tracker> {
    map k | k in m && k in vs && (k in todo || !Sends(c, m, vs, k)) :: Visited(m, vs, todo, k)
  }

  /** Whether some visited tracker was closed by its percentage stop. */
  predicate AnyReopen(vs: map<string, Verdict>, todo: set<string>) {
    exists k :: k in vs && k !in todo && vs[k].Closed? && vs[k].reopen
  }

  /** Whether `o` is the close order of a visited tracker. */
  predicate ClosedBy(c: Config, m: map<string, Tracker>, vs: map<string, Verdict>, todo: set<string>, o: Order) {
    exists k :: k in m && k !in todo && Sends(c, m, vs, k) && CloseOrderOf(m[k].position) == Some(o)
  }

  /** The visited trackers the tick closes. */
  function ClosedKeys(vs: map<string, Verdict>, todo: set<string>): set<string> {
    set k | k in vs && k !in todo && vs[k].Closed?
  }

  ghost predicate Filed(m: map<string, Tracker>) {
    forall k :: k in m ==> SymbolOf(m[k].position) == k
  }

  /** Visiting `k` updates its tracker and drops it when its close is
      sent; it adds its close order and its request for a new entry. */
  lemma TickStep(c: Config, m: map<string, Tracker>, vs: map<string, Verdict>, todo: set<string>, k: string)
    requires k in todo && todo <= m.Keys && m.Keys == vs.Keys
    ensures var before := TickTrackers(c, m, vs, todo); var v := vs[k];
      var updated := if v.Skipped? then before else before[k := v.tracker];
      TickTrackers(c, m, vs, todo - {k}) == if Sends(c, m, vs, k) then updated - {k} else updated
    ensures AnyReopen(vs, todo - {k}) <==> AnyReopen(vs, todo) || (vs[k].Closed? && vs[k].reopen)
    ensures ClosedKeys(vs, todo - {k}) == ClosedKeys(vs, todo) + (if vs[k].Closed? then {k} else {})
    ensures forall o :: ClosedBy(c, m, vs, todo - {k}, o) <==>
      ClosedBy(c, m, vs, todo, o) || (Sends(c, m, vs, k) && CloseOrderOf(m[k].position) == Some(o))
  {
  }

  /** The tick keeps every tracker filed under its symbol. */
  lemma TickFiled(c: Config, price: real, m: map<string, Tracker>, todo: set<string>)
    requires Filed(m)
    ensures Filed(TickTrackers(c, m, Verdicts(c, price, m), todo))
  {
    var vs := Verdicts(c, price, m);
    forall k | k in TickTrackers(c, m, vs, todo)
      ensures SymbolOf(TickTrackers(c, m, vs, todo)[k].position) == k
    {
      EvaluateFacts(c, price, k, m[k]);
    }
  }

  /** The monitor after visiting `k`: started when `k`'s percentage stop
      fired, unless it was started already. */
  lemma MonitorStep(vs: map<string, Verdict>, todo: set<string>, k: string, autoOpen: bool,
                    start: Monitor, req: Request, decision: Signal, dir: TradeDirection, price: real,
                    before: Monitor, after: Monitor)
    requires k in todo && k in vs
    requires before == if autoOpen && AnyReopen(vs, todo) then StartMonitor(start, req, decision, dir, price) else start
    requires after == if vs[k].Closed? && vs[k].reopen && autoOpen then StartMonitor(before, req, decision, dir, price) else before
    ensures after == if autoOpen && AnyReopen(vs, todo - {k}) then StartMonitor(start, req, decision, dir, price) else start
  {
    StartMonitorIdempotent(start, req, decision, dir, price);
    if vs[k].Closed? && vs[k].reopen {
      assert AnyReopen(vs, todo - {k});
    } else {
      assert AnyReopen(vs, todo - {k}) == AnyReopen(vs, todo) by {
        if AnyReopen(vs, todo - {k}) {
          var j :| j in vs && j !in todo - {k} && vs[j].Closed? && vs[j].reopen;
          assert j != k;
        }
      }
    }
  }

  /** The orders after visiting `k`: its close order added, if it sends one. */
  lemma SentStep(c: Config, m: map<string, Tracker>, vs: map<string, Verdict>, todo: set<string>, k: string,
                 sent: seq<Order>, sentNow: seq<Order>)
    requires k in todo && k in m && k in vs
    requires forall o :: o in sent <==> ClosedBy(c, m, vs, todo, o)
    requires sentNow == if Sends(c, m, vs, k) && CloseOrderOf(m[k].position).Some?
                        then [CloseOrderOf(m[k].position).value] else []
    ensures forall o :: o in sent + sentNow <==> ClosedBy(c, m, vs, todo - {k}, o)
  {
    forall o ensures o in sent + sentNow <==> ClosedBy(c, m, vs, todo - {k}, o) {
      if ClosedBy(c, m, vs, todo - {k}, o) && !ClosedBy(c, m, vs, todo, o) {
        var j :| j in m && j !in todo - {k} && Sends(c, m, vs, j) && CloseOrderOf(m[j].position) == Some(o);
        assert j == k;
      }
      if o in sentNow {
        assert ClosedBy(c, m, vs, todo - {k}, o) by {
          assert k in m && k !in todo - {k} && Sends(c, m, vs, k) && CloseOrderOf(m[k].position) == Some(o);
        }
      }
    }
  }

  /** Once every tracker is visited, dropping the closed ones gives the map
      after the tick. */
  lemma TickDoneTrackers(c: Config, price: real, m: map<string, Tracker>)
    ensures var vs := Verdicts(c, price, m); TickTrackers(c, m, vs, {}) - ClosedKeys(vs, {}) == AfterTick(c, price, m)
  {
  }

  /** Once every tracker is visited, a new entry has been asked for when
      some percentage stop fired. */
  lemma TickDoneReopen(c: Config, price: real, m: map<string, Tracker>)
    ensures AnyReopen(Verdicts(c, price, m), {}) <==> ReopenRequested(c, price, m)
  {
    var vs := Verdicts(c, price, m);
    if ReopenRequested(c, price, m) {
      var k :| k in m && Evaluate(c, price, k, m[k]).Closed? && Evaluate(c, price, k, m[k]).reopen;
      assert k in vs && vs[k].Closed? && vs[k].reopen;
    }
  }

  /** Once every tracker is visited, the orders sent are the close orders of
      the trackers whose close was sent. */
  lemma TickDoneOrders(c: Config, price: real, m: map<string, Tracker>, o: Order)
    ensures ClosedBy(c, m, Verdicts(c, price, m), {}, o) <==>
      exists k :: k in m && SendsClose(c, price, m, k) && CloseOrderOf(m[k].position) == Some(o)
  {
    var vs := Verdicts(c, price, m);
    if ClosedBy(c, m, vs, {}, o) {
      var k :| k in m && k !in {} && Sends(c, m, vs, k) && CloseOrderOf(m[k].position) == Some(o);
      assert k in m && SendsClose(c, price, m, k);
    }
    if exists k :: k in m && SendsClose(c, price, m, k) && CloseOrderOf(m[k].position) == Some(o) {
      var k :| k in m && SendsClose(c, price, m, k) && CloseOrderOf(m[k].position) == Some(o);
      assert Sends(c, m, vs, k);
    }
  }

  predicate ReopenRequested(c: Config, price: real, m: map<string, Tracker>) {
    exists k :: k in m && Evaluate(c, price, k, m[k]).Closed? && Evaluate(c, price, k, m[k]).reopen
  }

  /** The close wrapper's own ignore test, on the fee-adjusted profit; it
      sends the close unless the symbol is covered. */
  function WrapperSends(c: Config, t: Tracked): bool {
    var adjusted := Get(t, UnrealisedPnl, 0.0) - 0.0012 * Get(t, RealLeverage, 0.0) * Get(t, MaintMargin, 0.0);
    !(if adjusted > 0.0 then Ignored(c.ignoreTp, SymbolOf(t)) else Ignored(c.ignoreSl, SymbolOf(t)))
  }

  /** The order the exchange module sends to close the position; the details
      of a just-opened position have no quantity, on which the module fails. */
  function CloseOrderOf(t: Tracked): Option<Order> {
    match t
    case Opened(_) => None
    case Polled(p) => BybitApi.CloseOrder(p.symbol, p.currentQty)
  }

  /** Whether the tick has the close order of tracker `k` sent. */
  predicate SendsClose(c: Config, price: real, m: map<string, Tracker>, k: string)
    requires k in m
  {
    Evaluate(c, price, k, m[k]).Closed? && WrapperSends(c, m[k].position)
  }

  /** What the monitor sets up for a later timer: another look at the
      signal, or the confirmation after the wait. */
  datatype Request = Request(symbol: string, size: real, leverage: real)
  datatype Callback = CheckSignal(req: Request) | AfterWait(req: Request, side: Signal, stored: real)

  /** The `monitoring_signal` flag and the callbacks still to fire. */
  datatype Monitor = Monitor(active: bool, pending: seq<Callback>)

  /** A buy or sell signal the chosen direction excludes. */
  predicate Mismatch(dir: TradeDirection, side: Signal) {
    dir != Both && side != Wait && side != (if dir == OnlyBuy then Buy else Sell)
  }

  /** `check_signal` on an active monitor: drop a signal against the
      direction, store the price of a buy or sell and wait, or look again. */
  function CheckSignalStep(m: Monitor, req: Request, decision: Signal, dir: TradeDirection, price: real): (r: Monitor)
    ensures !m.active ==> r == m
    ensures m.active && Mismatch(dir, decision) ==> r == Monitor(false, m.pending)
    ensures m.active && !Mismatch(dir, decision) ==> r.active && |r.pending| == |m.pending| + 1
  {
    if !m.active then m
    else if Mismatch(dir, decision) then Monitor(false, m.pending)
    else if decision != Wait then Monitor(true, m.pending + [AfterWait(req, decision, price)])
    else Monitor(true, m.pending + [CheckSignal(req)])
  }

  /** `monitor_trade_signals`: nothing while active, otherwise raise the
      flag and look at the signal at once. */
  function StartMonitor(m: Monitor, req: Request, decision: Signal, dir: TradeDirection, price: real): Monitor {
    if m.active then m else CheckSignalStep(Monitor(true, m.pending), req, decision, dir, price)
  }

  /** A second start right after the first changes nothing, nor does a
      start while the monitor is active. */
  lemma StartMonitorIdempotent(m: Monitor, req: Request, decision: Signal, dir: TradeDirection, price: real)
    ensures var once := StartMonitor(m, req, decision, dir, price);
      StartMonitor(once, req, decision, dir, price) == once
    ensures m.active ==> StartMonitor(m, req, decision, dir, price) == m
  {
  }

  /** The confirmation after the wait: a buy needs the price strictly above
      the stored one, a sell strictly below. */
  predicate Confirmed(side: Signal, stored: real, price: real) {
    (side == Buy && price > stored) || (side == Sell && price < stored)
  }

  function SideName(s: Signal): string {
    match s
    case Buy => "buy"
    case Sell => "sell"
    case Wait => "wait"
  }

  function RequestOf(c: Config): Request {
    Request(c.selectedSymbol, c.contractQty, c.leverage)
  }

  function NewTracker(stop: real): BybitApi.Position -> Tracker {
    p => Tracker(Polled(p), if DisplayPnl(p) >= 10.0 then DisplayPnl(p) else 0.0, stop, 0)
  }

  function Refresh(t: Tracker, p: BybitApi.Position): Tracker {
    t.(position := Polled(p))
  }

  function PolledSymbol(p: BybitApi.Position): string { p.symbol }

  /** The tracker map after a poll of `ps`. */
  function Reconciled(m: map<string, Tracker>, ps: seq<BybitApi.Position>, stop: real): map<string, Tracker> {
    Risk.Reconcile(m, ps, PolledSymbol, NewTracker(stop), Refresh)
  }

  /** After a poll the trackers are keyed by exactly the polled symbols; with
      one position per symbol, a known symbol keeps its trigger, water mark
      and margin calls and takes the new position, and a new one starts at
      the default trigger, a water mark of its profit from 10% on (else 0)
      and no margin calls; polling the same list again changes nothing. */
  lemma ReconciledFacts(m: map<string, Tracker>, ps: seq<BybitApi.Position>, stop: real)
    ensures Reconciled(m, ps, stop).Keys == set i | 0 <= i < |ps| :: ps[i].symbol
    ensures Risk.DistinctKeys(ps, PolledSymbol) ==>
      forall i :: 0 <= i < |ps| ==>
        var r := Reconciled(m, ps, stop); var k := ps[i].symbol;
        k in r
        && (k in m ==> r[k] == m[k].(position := Polled(ps[i])))
        && (k !in m ==> r[k] == Tracker(Polled(ps[i]), if DisplayPnl(ps[i]) >= 10.0 then DisplayPnl(ps[i]) else 0.0, stop, 0))
    ensures Risk.DistinctKeys(ps, PolledSymbol) ==> Reconciled(Reconciled(m, ps, stop), ps, stop) == Reconciled(m, ps, stop)
  {
    Risk.ReconcileKeys(m, ps, PolledSymbol, NewTracker(stop), Refresh);
    assert Risk.KeysOf(ps, PolledSymbol) == set i | 0 <= i < |ps| :: ps[i].symbol;
    if Risk.DistinctKeys(ps, PolledSymbol) {
      forall i | 0 <= i < |ps|
        ensures var r := Reconciled(m, ps, stop); var k := ps[i].symbol;
          k in r
          && (k in m ==> r[k] == m[k].(position := Polled(ps[i])))
          && (k !in m ==> r[k] == Tracker(Polled(ps[i]), if DisplayPnl(ps[i]) >= 10.0 then DisplayPnl(ps[i]) else 0.0, stop, 0))
      {
        Risk.ReconcileValue(m, ps, PolledSymbol, NewTracker(stop), Refresh, i);
      }
      Risk.ReconcileIdempotent(m, ps, PolledSymbol, NewTracker(stop), Refresh);
    }
  }

  class Window {
    var config: Config
    var trackers: map<string, Tracker>
    var emptyCount: nat
    var monitoringSignal: bool
    var pending: seq<Callback>
    var decisionValue: Signal
    var lastPrice: real
    var alertAboveTriggered: bool
    var alertBelowTriggered: bool
    /** The orders sent to the exchange, oldest first. */
    var orders: seq<Order>

    /** Every tracker is filed under its position's symbol. */
    ghost predicate Valid()
      reads this
    {
      forall k :: k in trackers ==> SymbolOf(trackers[k].position) == k
    }

    function MonitorState(): Monitor
      reads this
    {
      Monitor(monitoringSignal, pending)
    }

    /** The window as it starts, with the default settings (saved settings
        and trackers are not part of this model). */
    constructor ()
      ensures Valid() && trackers == map[] && emptyCount == 0 && !monitoringSignal && pending == []
      ensures decisionValue == Wait && lastPrice == 0.0 && orders == []
      ensures !alertAboveTriggered && !alertBelowTriggered
      ensures config == Config(-3.5, NoTarget, true, 1.5, 5.0, 8.0, 10.0, true, false, [], [],
                               "XBTUSDTM", 20.0, 1.0, Both, 0.0, 0.0, 14, true, true, false, true)
    {
      config := Config(-3.5, NoTarget, true, 1.5, 5.0, 8.0, 10.0, true, false, [], [],
                       "XBTUSDTM", 20.0, 1.0, Both, 0.0, 0.0, 14, true, true, false, true);
      trackers := map[];
      emptyCount := 0;
      monitoringSignal := false;
      pending := [];
      decisionValue := Wait;
      lastPrice := 0.0;
      alertAboveTriggered := false;
      alertBelowTriggered := false;
      orders := [];
    }

    /** `check_parameters_changes`: the settings it reads replaced, both
        ignore lists parsed from their text, and both alerts re-armed; every
        other setting stays as it was. `None` stands for a field
        `int`/`float` rejects, which leaves everything as it was. */
    method CheckParametersChanges(fields: Option<Settings>, ignoreSlText: string, ignoreTpText: string)
      modifies `config, `alertAboveTriggered, `alertBelowTriggered
      ensures fields.None? ==> config == old(config) && alertAboveTriggered == old(alertAboveTriggered)
                               && alertBelowTriggered == old(alertBelowTriggered)
      ensures fields.Some? ==> var f := fields.value;
        config == old(config).(leverage := f.leverage, defaultStopLoss := f.defaultStopLoss,
                               stopLossPrice := f.stopLossPrice, autoCalcTrailingStop := f.autoCalcTrailingStop,
                               trailing1To15 := f.trailing1To15, trailing16To30 := f.trailing16To30,
                               trailing31To50 := f.trailing31To50, trailingAbove50 := f.trailingAbove50,
                               alertAbove := f.alertAbove, alertBelow := f.alertBelow,
                               contractQty := f.contractQty, rsiPeriod := f.rsiPeriod,
                               ignoreSl := ParseList(Strip(ignoreSlText)),
                               ignoreTp := ParseList(Strip(ignoreTpText)))
        && !alertAboveTriggered && !alertBelowTriggered
    {
      if fields.Some? {
        var f := fields.value;
        var sl := ParseList(Strip(ignoreSlText));
        var tp := ParseList(Strip(ignoreTpText));
        config := config.(leverage := f.leverage, defaultStopLoss := f.defaultStopLoss,
                          stopLossPrice := f.stopLossPrice, autoCalcTrailingStop := f.autoCalcTrailingStop,
                          trailing1To15 := f.trailing1To15, trailing16To30 := f.trailing16To30,
                          trailing31To50 := f.trailing31To50, trailingAbove50 := f.trailingAbove50,
                          alertAbove := f.alertAbove, alertBelow := f.alertBelow,
                          contractQty := f.contractQty, rsiPeriod := f.rsiPeriod,
                          ignoreSl := sl, ignoreTp := tp);
        alertAboveTriggered := false;
        alertBelowTriggered := false;
      }
    }

    /** The tracker part of `update_positions_display`. */
    method UpdatePositionsDisplay(positions: seq<BybitApi.Position>)
      requires Valid()
      modifies `trackers
      ensures Valid()
      ensures trackers == Reconciled(old(trackers), positions, config.defaultStopLoss)
    {
      var stop := config.defaultStopLoss;
      var ids: set<string> := {};
      var i := 0;
      while i < |positions|
        invariant 0 <= i <= |positions|
        invariant trackers == Risk.Upsert(old(trackers), positions[..i], PolledSymbol, NewTracker(stop), Refresh)
        invariant ids == Risk.KeysOf(positions[..i], PolledSymbol)
        invariant Valid()
      {
        var p := positions[i];
        Risk.UpsertSnoc(old(trackers), positions, PolledSymbol, NewTracker(stop), Refresh, i);
        ids := ids + {p.symbol};
        if p.symbol !in trackers {
          trackers := trackers[p.symbol := NewTracker(stop)(p)];
        } else {
          trackers := trackers[p.symbol := Refresh(trackers[p.symbol], p)];
        }
        i := i + 1;
      }
      assert positions[..i] == positions;
      ghost var upserted := trackers;
      var stale := trackers.Keys;
      while stale != {}
        invariant stale <= upserted.Keys
        invariant trackers == map k | k in upserted && (k in ids || k in stale) :: upserted[k]
        invariant Valid()
      {
        var pid :| pid in stale;
        if pid !in ids {
          trackers := trackers - {pid};
        }
        stale := stale - {pid};
      }
    }

    /** `fetch_open_positions` of the window, over what the exchange module
        answered (`None` for a failed request). */
    method FetchOpenPositions(data: Option<seq<BybitApi.Position>>)
      requires Valid()
      modifies `trackers, `emptyCount, `monitoringSignal, `pending
      ensures Valid()
      ensures var poll := if data.None? then None else Some(data.value != []);
        var d := Control.Debounce(old(emptyCount), old(monitoringSignal), config.autoOpen, poll);
        emptyCount == d.emptyCount
        && (data.None? ==> trackers == old(trackers))
        && (data.Some? ==> trackers == Reconciled(old(trackers), data.value, config.defaultStopLoss))
        && MonitorState() == (if d.start
                               then StartMonitor(Monitor(d.monitoring, old(pending)), RequestOf(config),
                                                 decisionValue, config.direction, lastPrice)
                               else Monitor(d.monitoring, old(pending)))
    {
      if data.Some? {
        UpdatePositionsDisplay(data.value);
        if data.value != [] {
          monitoringSignal := false;
          emptyCount := 0;
        } else {
          emptyCount := emptyCount + 1;
        }
        if data.value == [] && config.autoOpen && !monitoringSignal && emptyCount > 3 {
          OpenNewPositionAfterClose();
        }
      }
    }

    /** `open_new_position_after_close`, which starts the monitor with the
        selected symbol, the default size and the default leverage. */
    method OpenNewPositionAfterClose()
      modifies `monitoringSignal, `pending
      ensures MonitorState() == StartMonitor(old(MonitorState()), RequestOf(config), decisionValue, config.direction, lastPrice)
    {
      if monitoringSignal {
        return;
      }
      monitoringSignal := true;
      RunCheckSignal(RequestOf(config));
    }

    /** The body of `check_signal`. */
    method RunCheckSignal(req: Request)
      modifies `monitoringSignal, `pending
      ensures MonitorState() == CheckSignalStep(old(MonitorState()), req, decisionValue, config.direction, lastPrice)
    {
      if !monitoringSignal {
        return;
      }
      var side := decisionValue;
      if Mismatch(config.direction, side) {
        monitoringSignal := false;
        return;
      }
      if side != Wait {
        pending := pending + [AfterWait(req, side, lastPrice)];
      } else {
        pending := pending + [CheckSignal(req)];
      }
    }

    /** A timer set by the monitor fires: callback `i` of the pending ones.
        `hasOrderId` is whether the exchange accepted an order it is sent. */
    method FireTimer(i: nat, hasOrderId: bool)
      requires Valid() && i < |pending|
      modifies `monitoringSignal, `pending, `orders, `trackers
      ensures Valid()
      ensures var cb := old(pending)[i]; var rest := old(pending)[..i] + old(pending)[i + 1..];
        match cb
        case CheckSignal(req) =>
          MonitorState() == CheckSignalStep(Monitor(old(monitoringSignal), rest), req, decisionValue, config.direction, lastPrice)
          && trackers == old(trackers) && orders == old(orders)
        case AfterWait(req, side, stored) =>
          var opens := old(monitoringSignal) && Confirmed(side, stored, lastPrice);
          var details := BybitApi.OpenResult(req.symbol, SideName(side), req.size, req.leverage, hasOrderId);
          pending == rest
          && !monitoringSignal
          && (opens ==> orders == old(orders) + [BybitApi.OpenOrder(req.symbol, SideName(side), req.size)])
          && (!opens ==> orders == old(orders))
          && (opens && details.Some? ==> trackers == old(trackers)[req.symbol := Tracker(Opened(details.value), 0.0, config.defaultStopLoss, 0)])
          && (!opens || details.None? ==> trackers == old(trackers))
    {
      var cb := pending[i];
      pending := pending[..i] + pending[i + 1..];
      match cb
      case CheckSignal(req) =>
        RunCheckSignal(req);
      case AfterWait(req, side, stored) =>
        if !monitoringSignal {
          return;
        }
        if Confirmed(side, stored, lastPrice) {
          orders := orders + [BybitApi.OpenOrder(req.symbol, SideName(side), req.size)];
          var details := BybitApi.OpenResult(req.symbol, SideName(side), req.size, req.leverage, hasOrderId);
          if details.Some? {
            trackers := trackers[req.symbol := Tracker(Opened(details.value), 0.0, config.defaultStopLoss, 0)];
          }
        }
        monitoringSignal := false;
    }

    /** `check_decision_indicators`, over the candles the request returned. */
    method CheckDecisionIndicators(response: Option<seq<Row>>)
      modifies `decisionValue
      ensures decisionValue == Decision(DecideVote(response, config.rsiPeriod, config.useSma, config.useRsi,
                                                   config.useVolume, config.useHighLow))
    {
      decisionValue := Decision(DecideVote(response, config.rsiPeriod, config.useSma, config.useRsi,
                                           config.useVolume, config.useHighLow));
    }

    /** `update_price_label`: the new last price and both alerts; the results
        say which alert fired. */
    method UpdatePriceLabel(price: real) returns (aboveFires: bool, belowFires: bool)
      modifies `lastPrice, `alertAboveTriggered, `alertBelowTriggered
      ensures var a := Control.Alert(true, config.alertAbove, old(alertAboveTriggered), price);
        aboveFires == a.fires && alertAboveTriggered == a.triggered
      ensures var b := Control.Alert(false, config.alertBelow, old(alertBelowTriggered), price);
        belowFires == b.fires && alertBelowTriggered == b.triggered
      ensures lastPrice == price
    {
      lastPrice := price;
      aboveFires := false;
      belowFires := false;
      if config.alertAbove > 0.0 && price >= config.alertAbove {
        if !alertAboveTriggered {
          alertAboveTriggered := true;
          aboveFires := true;
        }
      } else {
        alertAboveTriggered := false;
      }
      if config.alertBelow > 0.0 && price <= config.alertBelow {
        if !alertBelowTriggered {
          alertBelowTriggered := true;
          belowFires := true;
        }
      } else {
        alertBelowTriggered := false;
      }
    }

    /** The window's `close_position_market`: unless the side's ignore list
        covers the symbol, the exchange module is asked to close and the
        tracker under the symbol is dropped. */
    method ClosePositionMarket(t: Tracked)
      modifies `trackers, `orders
      ensures WrapperSends(config, t) ==>
        trackers == old(trackers) - {SymbolOf(t)}
        && orders == old(orders) + (if CloseOrderOf(t).Some? then [CloseOrderOf(t).value] else [])
      ensures !WrapperSends(config, t) ==> trackers == old(trackers) && orders == old(orders)
    {
      var symbol := SymbolOf(t);
      var adjusted := Get(t, UnrealisedPnl, 0.0) - 0.0012 * Get(t, RealLeverage, 0.0) * Get(t, MaintMargin, 0.0);
      var ignored: bool;
      if adjusted > 0.0 {
        ignored := IsIgnored(config.ignoreTp, symbol);
      } else {
        ignored := IsIgnored(config.ignoreSl, symbol);
      }
      if ignored {
        return;
      }
      var order := CloseOrderOf(t);
      if order.Some? {
        orders := orders + [order.value];
      }
      trackers := trackers - {symbol};
    }

    /** How far the tick over the copy `m` (verdicts `vs`) has got with
        `todo` still to visit: the trackers, the monitor, the keys to delete
        and the close orders sent. */
    ghost predicate TickProgress(m: map<string, Tracker>, vs: map<string, Verdict>, todo: set<string>,
                                 closed: set<string>, sent: seq<Order>, start: Monitor, before: seq<Order>)
      reads this
    {
      todo <= m.Keys && m.Keys == vs.Keys && Filed(m)
      && closed == ClosedKeys(vs, todo)
      && trackers == TickTrackers(config, m, vs, todo)
      && MonitorState() == (if config.autoOpen && AnyReopen(vs, todo)
                            then StartMonitor(start, RequestOf(config), decisionValue, config.direction, lastPrice) else start)
      && orders == before + sent && |sent| + |todo| <= |m.Keys|
      && forall o :: o in sent <==> ClosedBy(config, m, vs, todo, o)
    }

    /** What the tick does with the verdict `v` on tracker `k`, whose
        position is `t`: store the updated tracker, close, ask for a new entry. */
    method ApplyVerdict(k: string, t: Tracked, v: Verdict)
      requires SymbolOf(t) == k
      modifies `trackers, `orders, `monitoringSignal, `pending
      ensures var updated := if v.Skipped? then old(trackers) else old(trackers)[k := v.tracker];
        trackers == if v.Closed? && WrapperSends(config, t) then updated - {k} else updated
      ensures orders == old(orders) + (if v.Closed? && WrapperSends(config, t) && CloseOrderOf(t).Some?
                                       then [CloseOrderOf(t).value] else [])
      ensures MonitorState() == if v.Closed? && v.reopen && config.autoOpen
                                then StartMonitor(old(MonitorState()), RequestOf(config), decisionValue, config.direction, lastPrice)
                                else old(MonitorState())
    {
      if !v.Skipped? {
        trackers := trackers[k := v.tracker];
      }
      if v.Closed? {
        ClosePositionMarket(t);
        if v.reopen && config.autoOpen {
          OpenNewPositionAfterClose();
        }
      }
    }

    /** One visit of the tick: tracker `k`. */
    method VisitTracker(m: map<string, Tracker>, vs: map<string, Verdict>, todo: set<string>, k: string,
                        closed: set<string>, ghost sent: seq<Order>, ghost start: Monitor, ghost before: seq<Order>)
      returns (closed': set<string>, ghost sent': seq<Order>)
      requires k in todo && TickProgress(m, vs, todo, closed, sent, start, before)
      modifies `trackers, `orders, `monitoringSignal, `pending
      ensures TickProgress(m, vs, todo - {k}, closed', sent', start, before)
    {
      var t := m[k];
      var v := vs[k];
      TickStep(config, m, vs, todo, k);
      ghost var monitorBefore := MonitorState();
      ApplyVerdict(k, t.position, v);
      MonitorStep(vs, todo, k, config.autoOpen, start, RequestOf(config), decisionValue, config.direction, lastPrice,
                  monitorBefore, MonitorState());
      closed' := if v.Closed? then closed + {k} else closed;
      ghost var sentNow := if v.Closed? && WrapperSends(config, t.position) && CloseOrderOf(t.position).Some?
                           then [CloseOrderOf(t.position).value] else [];
      SentStep(config, m, vs, todo, k, sent, sentNow);
      AppendAssociative(before, sent, sentNow);
      sent' := sent + sentNow;
    }

    /** The loop of the tick: every tracker of the copy `m` visited once, in
        some order; `closed` is the list of trackers to delete. */
    method VisitAll(m: map<string, Tracker>, vs: map<string, Verdict>) returns (closed: set<string>, ghost sent: seq<Order>)
      requires trackers == m && m.Keys == vs.Keys && Filed(m)
      modifies `trackers, `orders, `monitoringSignal, `pending
      ensures TickProgress(m, vs, {}, closed, sent, old(MonitorState()), old(orders))
    {
      var todo := m.Keys;
      closed := {};
      sent := [];
      assert ClosedKeys(vs, todo) == {};
      assert trackers == TickTrackers(config, m, vs, todo);
      while todo != {}
        invariant TickProgress(m, vs, todo, closed, sent, old(MonitorState()), old(orders))
        decreases |todo|
      {
        var k :| k in todo;
        closed, sent := VisitTracker(m, vs, todo, k, closed, sent, old(MonitorState()), old(orders));
        todo := todo - {k};
      }
    }

    /** `check_auto_close_positions`, over a copy of the trackers taken at the
        start. */
    method CheckAutoClosePositions()
      requires Valid()
      modifies `trackers, `orders, `monitoringSignal, `pending
      ensures Valid()
      ensures trackers == AfterTick(config, lastPrice, old(trackers))
      ensures MonitorState() ==
        if config.autoOpen && ReopenRequested(config, lastPrice, old(trackers))
        then StartMonitor(old(MonitorState()), RequestOf(config), decisionValue, config.direction, lastPrice)
        else old(MonitorState())
      ensures |old(orders)| <= |orders| <= |old(orders)| + |old(trackers)| && orders[..|old(orders)|] == old(orders)
      ensures forall o :: o in orders[|old(orders)|..] <==>
        exists k :: k in old(trackers) && SendsClose(config, lastPrice, old(trackers), k)
                    && CloseOrderOf(old(trackers)[k].position) == Some(o)
    {
      var snapshot := trackers;
      var vs := Verdicts(config, lastPrice, snapshot);
      var toDelete, sent := VisitAll(snapshot, vs);
      TickDoneTrackers(config, lastPrice, snapshot);
      TickDoneReopen(config, lastPrice, snapshot);
      forall o ensures ClosedBy(config, snapshot, vs, {}, o) <==>
        exists k :: k in snapshot && SendsClose(config, lastPrice, snapshot, k) && CloseOrderOf(snapshot[k].position) == Some(o)
      {
        TickDoneOrders(config, lastPrice, snapshot, o);
      }
      TickFiled(config, lastPrice, snapshot, {});
      trackers := trackers - toDelete;
      assert orders[|old(orders)|..] == sent;
    }
  }
}
