// The Binance window: the tracker map behind the trailing stop, the tick that
// closes positions, the reconciliation with each poll, the debounce that
// starts the signal monitor, the monitor that opens at once on a signal, and
// the price alerts.
module BinanceUi {
  import opened Common
  import opened Indicators
  import BinanceApi
  import Risk
  import Control

  /** The settings the window reads. */
  datatype Config = Config(
    leverage: real, defaultStopLoss: real,
    trailing16To30: real, trailing31To50: real, trailingAbove50: real,
    alertAbove: real, alertBelow: real, usdAmount: real, rsiPeriod: nat,
    selectedSymbol: string, autoOpen: bool, useSma: bool, useRsi: bool, useVolume: bool)

  /** The numeric fields `check_parameters_changes` reads. */
  datatype Settings = Settings(
    leverage: real, defaultStopLoss: real,
    trailing16To30: real, trailing31To50: real, trailingAbove50: real,
    alertAbove: real, alertBelow: real, usdAmount: real, rsiPeriod: nat)

  /** A tracker's position: a polled record, or the record of a position the
      window has just opened. */
  datatype Tracked = Polled(p: BinanceApi.Position) | Opened(d: BinanceApi.OpenedPosition)

  function SymbolOf(t: Tracked): string {
    match t
    case Polled(p) => p.symbol
    case Opened(d) => d.symbol
  }

  /** `position.get('pnl_percentage', 0.0)`: the record of an opened
      position has no profit field. */
  function PnlOf(t: Tracked): real {
    match t
    case Polled(p) => p.pnlPercentage
    case Opened(_) => 0.0
  }

  /** A tracker; a trigger can be missing from a tracker the window did not
      create itself, and the tick then sets it. */
  datatype Tracker = Tracker(position: Tracked, maxPnlPercent: real, triggerStopLossPercent: Option<real>)

  /** The level the band table gives. */
  function BandStop(c: Config, pnl: real): real {
    if 0.5 <= pnl <= 15.9 then c.defaultStopLoss + pnl
    else if 16.0 <= pnl <= 30.0 then pnl - c.trailing16To30
    else if 31.0 <= pnl <= 50.0 then pnl - c.trailing31To50
    else if pnl > 50.0 then pnl - c.trailingAbove50
    else c.defaultStopLoss
  }

  /** The table band by band, including the ranges it leaves to the default:
      below 0.5%, (15.9, 16) and (30, 31). */
  lemma BandStopBands(c: Config, pnl: real)
    ensures var s := BandStop(c, pnl); var d := c.defaultStopLoss;
      (pnl < 0.5 ==> s == d)
      && (0.5 <= pnl <= 15.9 ==> s == d + pnl)
      && (15.9 < pnl < 16.0 ==> s == d)
      && (16.0 <= pnl <= 30.0 ==> s == pnl - c.trailing16To30)
      && (30.0 < pnl < 31.0 ==> s == d)
      && (31.0 <= pnl <= 50.0 ==> s == pnl - c.trailing31To50)
      && (pnl > 50.0 ==> s == pnl - c.trailingAbove50)
  {
  }

  /** With a negative default and positive trailing distances, a level the
      table gives from 0.5% on lies below the profit it was computed from. */
  lemma BandStopTrailsProfit(c: Config, pnl: real)
    requires c.defaultStopLoss < 0.0 && c.trailing16To30 > 0.0 && c.trailing31To50 > 0.0 && c.trailingAbove50 > 0.0
    requires pnl >= 0.5
    ensures BandStop(c, pnl) < pnl
  {
  }

  /** What the tick decides for one tracker: the updated tracker, and whether
      the position closes. */
  datatype Verdict = Verdict(tracker: Tracker, close: bool)

  function Evaluate(c: Config, t: Tracker): Verdict {
    var pnl := PnlOf(t.position);
    var trigger := Risk.RatchetOptional(t.triggerStopLossPercent, BandStop(c, pnl), pnl);
    Verdict(t.(triggerStopLossPercent := Some(trigger), maxPnlPercent := Risk.WaterMark(t.maxPnlPercent, pnl)),
            pnl <= trigger)
  }

  /** The tick always leaves a trigger; a missing one becomes the table's
      level, and in profit an existing trigger never moves down; at a loss
      the trigger is the default. The water mark is the running maximum in
      profit and the loss at a loss. A position closes exactly when its
      profit is at or below the new trigger. */
  lemma EvaluateFacts(c: Config, t: Tracker)
    ensures var v := Evaluate(c, t); var pnl := PnlOf(t.position);
      v.tracker.triggerStopLossPercent.Some?
      && v.tracker.position == t.position
      && (t.triggerStopLossPercent.None? ==> v.tracker.triggerStopLossPercent == Some(BandStop(c, pnl)))
      && (pnl >= 0.0 && t.triggerStopLossPercent.Some? ==>
            v.tracker.triggerStopLossPercent.value >= t.triggerStopLossPercent.value)
      && (pnl < 0.0 ==> v.tracker.triggerStopLossPercent == Some(c.defaultStopLoss))
      && (pnl >= 0.0 ==> v.tracker.maxPnlPercent >= t.maxPnlPercent && v.tracker.maxPnlPercent >= pnl)
      && (pnl < 0.0 ==> v.tracker.maxPnlPercent == pnl)
      && (v.close <==> pnl <= v.tracker.triggerStopLossPercent.value)
  {
    Risk.WaterMarkFacts(t.maxPnlPercent, PnlOf(t.position));
  }

  /** What the monitor captured when it started: the symbol, the amount in
      dollars and the leverage of the position it is to open. */
  datatype Request = Request(symbol: string, usd: real, leverage: real)

  /** The `monitoring_signal` flag and the `check_signal` timers still to fire. */
  datatype Monitor = Monitor(active: bool, pending: seq<Request>)

  /** What the exchange answers while a position is opened: the price, the
      LOT_SIZE filter, the loan allowance, the loan and the order (see
      `BinanceApi.OpenNewPositionMarket`). */
  datatype Market = Market(price: real, lot: Option<BinanceApi.LotSize>, maxBorrowable: Option<real>,
                           loanGranted: bool, order: Option<BinanceApi.OrderReply>)

  /** What the window asks of the exchange module. */
  datatype Call = CloseCall(position: Tracked) | OpenCall(symbol: string, side: string, usd: real, leverage: real)

  /** `decision_value.upper()`. */
  function SideName(s: Signal): string {
    match s
    case Buy => "BUY"
    case Sell => "SELL"
    case Wait => "WAIT"
  }

  function RequestOf(c: Config): Request {
    Request(c.selectedSymbol, c.usdAmount, c.leverage)
  }

  function OpenCallOf(req: Request, decision: Signal): Call {
    OpenCall(req.symbol, SideName(decision), req.usd, req.leverage)
  }

  /** The record the exchange module hands back for the open. */
  function Outcome(req: Request, decision: Signal, mk: Market): Option<BinanceApi.OpenedPosition> {
    BinanceApi.OpenNewPositionMarket(req.symbol, SideName(decision), req.usd, req.leverage,
                                     mk.price, mk.lot, mk.maxBorrowable, mk.loanGranted, mk.order)
  }

  /** The tracker an open seeds. */
  function Seed(stop: real, d: BinanceApi.OpenedPosition): Tracker {
    Tracker(Opened(d), 0.0, Some(stop))
  }

  /** One `check_signal`: a buy or sell opens and clears the flag, anything
      else sets up another look. The flag is not consulted. */
  function CheckSignalMonitor(m: Monitor, req: Request, decision: Signal): Monitor {
    if decision != Wait then Monitor(false, m.pending) else Monitor(m.active, m.pending + [req])
  }

  /** `monitor_trade_signals`: nothing while active, otherwise raise the flag
      and run `check_signal` at once. */
  function StartMonitor(m: Monitor, req: Request, decision: Signal): Monitor {
    if m.active then m else CheckSignalMonitor(Monitor(true, m.pending), req, decision)
  }

  /** A second start right after the first leaves the monitor as the first
      one did, and a start while active changes nothing. */
  lemma StartMonitorIdempotent(m: Monitor, req: Request, decision: Signal)
    ensures var once := StartMonitor(m, req, decision); StartMonitor(once, req, decision) == once
    ensures m.active ==> StartMonitor(m, req, decision) == m
    ensures !m.active && decision == Wait ==> StartMonitor(m, req, decision) == Monitor(true, m.pending + [req])
  {
  }

  /** Whether a monitor start opens a position: the monitor is idle and the
      decision is buy or sell. */
  predicate StartOpens(active: bool, decision: Signal) {
    !active && decision != Wait
  }

  /** Whether each close of a tick opens a new position, and the tracker each
      successful open seeds. */
  predicate OpensOnClose(c: Config, active: bool, decision: Signal) {
    c.autoOpen && StartOpens(active, decision)
  }

  function Reentry(c: Config, active: bool, decision: Signal, mk: Market): Option<Tracker> {
    if OpensOnClose(c, active, decision) then
      match Outcome(RequestOf(c), decision, mk)
      case None => None
      case Some(d) => Some(Seed(c.defaultStopLoss, d))
    else None
  }

  /** The verdict of every tracker of the tick's copy. */
  function Verdicts(c: Config, m: map<string, Tracker>): map<string, Verdict> {
    map k | k in m :: Evaluate(c, m[k])
  }

  /** The visited trackers the tick closes. */
  function ClosedKeys(vs: map<string, Verdict>, todo: set<string>): set<string> {
    set k | k in vs && k !in todo && vs[k].close
  }

  /** The copy's trackers part way through the tick: the visited ones
      updated, the visited closed ones gone. */
  function Base(m: map<string, Tracker>, vs: map<string, Verdict>, todo: set<string>): map<string, Tracker> {
    map k | k in m && k in vs && (k in todo || !vs[k].close) :: if k in todo then m[k] else vs[k].tracker
  }

  /** The tracker map part way through the tick: once a close has opened a
      new position, the selected symbol holds its seeded tracker, which later
      updates of the copy's tracker do not reach. */
  function TickLive(m: map<string, Tracker>, vs: map<string, Verdict>, todo: set<string>,
                    seed: Option<Tracker>, selected: string): map<string, Tracker> {
    var base := Base(m, vs, todo);
    if seed.Some? && ClosedKeys(vs, todo) != {} then base[selected := seed.value] else base
  }

  /** Whether `o` is a call the tick has made with `todo` still to visit. */
  predicate SentBy(m: map<string, Tracker>, vs: map<string, Verdict>, todo: set<string>, opens: bool, open: Call, o: Call) {
    (exists k :: k in m && k in vs && k !in todo && vs[k].close && o == CloseCall(m[k].position))
    || (opens && ClosedKeys(vs, todo) != {} && o == open)
  }

  /** The trackers a tick closes. */
  function Closing(c: Config, m: map<string, Tracker>): set<string> {
    set k | k in m && Evaluate(c, m[k]).close
  }

  /** The tracker map after a tick: the kept trackers updated and, when a
      close opened a position and the selected symbol did not close, the
      seeded tracker under the selected symbol. */
  function AfterTick(c: Config, m: map<string, Tracker>, active: bool, decision: Signal, mk: Market): map<string, Tracker> {
    var vs := Verdicts(c, m);
    TickLive(m, vs, {}, Reentry(c, active, decision, mk), c.selectedSymbol) - ClosedKeys(vs, {})
  }

  lemma ClosingIsClosedKeys(c: Config, m: map<string, Tracker>)
    ensures Closing(c, m) == ClosedKeys(Verdicts(c, m), {})
  {
  }

  /** After a tick a closed position has no tracker, a kept one has its
      updated tracker, and the selected symbol, unless it closed, holds the
      tracker seeded by an open when a close opened a position. */
  lemma AfterTickFacts(c: Config, m: map<string, Tracker>, active: bool, decision: Signal, mk: Market, k: string)
    ensures var r := AfterTick(c, m, active, decision, mk);
      var reseeded := Reentry(c, active, decision, mk).Some? && Closing(c, m) != {};
      (k in Closing(c, m) ==> k !in r)
      && (k in m && k !in Closing(c, m) && !(k == c.selectedSymbol && reseeded) ==>
            k in r && r[k] == Evaluate(c, m[k]).tracker)
      && (k == c.selectedSymbol && reseeded && k !in Closing(c, m) ==>
            k in r && r[k] == Reentry(c, active, decision, mk).value)
      && (k !in m && !(k == c.selectedSymbol && reseeded) ==> k !in r)
  {
    ClosingIsClosedKeys(c, m);
  }

  /** Visiting `k` updates its tracker, or drops it when it closes. */
  lemma BaseStep(m: map<string, Tracker>, vs: map<string, Verdict>, todo: set<string>, k: string)
    requires k in todo && todo <= m.Keys && m.Keys == vs.Keys
    ensures Base(m, vs, todo - {k}) == if vs[k].close then Base(m, vs, todo) - {k} else Base(m, vs, todo)[k := vs[k].tracker]
    ensures ClosedKeys(vs, todo - {k}) == ClosedKeys(vs, todo) + (if vs[k].close then {k} else {})
    ensures k !in ClosedKeys(vs, todo)
  {
  }

  /** What the visit of `k` does to the tracker map: the copy's tracker
      updated where it still is the one under `k`, then, on a close, the
      tracker under `k` dropped and the seeded one stored. */
  function Applied(live: map<string, Tracker>, k: string, v: Verdict, replaced: bool, selected: string,
                   seed: Option<Tracker>): map<string, Tracker> {
    var updated := if k == selected && replaced then live else live[k := v.tracker];
    if !v.close then updated
    else if seed.Some? then (updated - {k})[selected := seed.value]
    else updated - {k}
  }

  /** Visiting `k` takes the tracker map of the tick one visit further. */
  lemma LiveStep(m: map<string, Tracker>, vs: map<string, Verdict>, todo: set<string>, k: string,
                 seed: Option<Tracker>, selected: string)
    requires k in todo && todo <= m.Keys && m.Keys == vs.Keys
    ensures var replaced := seed.Some? && ClosedKeys(vs, todo) != {};
      Applied(TickLive(m, vs, todo, seed, selected), k, vs[k], replaced, selected, seed)
        == TickLive(m, vs, todo - {k}, seed, selected)
  {
    BaseStep(m, vs, todo, k);
    var base := Base(m, vs, todo);
    var v := vs[k];
    if seed.Some? && ClosedKeys(vs, todo) != {} {
      var s := seed.value;
      if k == selected {
        if v.close {
          assert (base[selected := s] - {k})[selected := s] == (base - {k})[selected := s];
        } else {
          assert base[selected := s] == base[k := v.tracker][selected := s];
        }
      } else {
        if v.close {
          assert (base[selected := s][k := v.tracker] - {k})[selected := s] == (base - {k})[selected := s];
        } else {
          assert base[selected := s][k := v.tracker] == base[k := v.tracker][selected := s];
        }
      }
    } else if v.close {
      assert base[k := v.tracker] - {k} == base - {k};
    }
  }

  /** The calls after visiting `k`: its close, followed by an open when
      closes open new positions. */
  lemma SentStep(m: map<string, Tracker>, vs: map<string, Verdict>, todo: set<string>, k: string,
                 opens: bool, open: Call, sent: seq<Call>, sentNow: seq<Call>)
    requires k in todo && todo <= m.Keys && m.Keys == vs.Keys
    requires forall o :: o in sent <==> SentBy(m, vs, todo, opens, open, o)
    requires sentNow == if vs[k].close then [CloseCall(m[k].position)] + (if opens then [open] else []) else []
    ensures forall o :: o in sent + sentNow <==> SentBy(m, vs, todo - {k}, opens, open, o)
  {
    BaseStep(m, vs, todo, k);
    forall o ensures o in sent + sentNow <==> SentBy(m, vs, todo - {k}, opens, open, o) {
      if o in sentNow {
        assert vs[k].close;
        if o == CloseCall(m[k].position) {
          assert k in m && k in vs && k !in todo - {k} && vs[k].close && o == CloseCall(m[k].position);
        } else {
          assert k in ClosedKeys(vs, todo - {k});
        }
      }
      if SentBy(m, vs, todo - {k}, opens, open, o) && !SentBy(m, vs, todo, opens, open, o) {
        if exists j :: j in m && j in vs && j !in todo - {k} && vs[j].close && o == CloseCall(m[j].position) {
          var j :| j in m && j in vs && j !in todo - {k} && vs[j].close && o == CloseCall(m[j].position);
          assert j == k;
        } else {
          assert ClosedKeys(vs, todo) == {};
          assert ClosedKeys(vs, todo - {k}) != {};
          assert vs[k].close;
        }
      }
    }
  }

  /** Once every tracker is visited, a call was made exactly for each closed
      position and, when closes open positions and some position closed, for
      the open. */
  lemma TickDoneCalls(c: Config, m: map<string, Tracker>, opens: bool, open: Call, o: Call)
    ensures SentBy(m, Verdicts(c, m), {}, opens, open, o) <==>
      (exists k :: k in m && Evaluate(c, m[k]).close && o == CloseCall(m[k].position))
      || (opens && (exists k :: k in m && Evaluate(c, m[k]).close) && o == open)
  {
    var vs := Verdicts(c, m);
    if exists k :: k in m && Evaluate(c, m[k]).close {
      var k :| k in m && Evaluate(c, m[k]).close;
      assert k in ClosedKeys(vs, {});
    }
    if ClosedKeys(vs, {}) != {} {
      var k :| k in ClosedKeys(vs, {});
      assert k in m && Evaluate(c, m[k]).close;
    }
    if exists k :: k in m && Evaluate(c, m[k]).close && o == CloseCall(m[k].position) {
      var k :| k in m && Evaluate(c, m[k]).close && o == CloseCall(m[k].position);
      assert k in vs && vs[k].close;
    }
  }

  /** During a tick the monitor, once a close has started it, is idle
      exactly when it was idle at the start and the decision is buy or sell;
      so every close of the tick opens or none does. */
  lemma OpensStable(start: Monitor, req: Request, decision: Signal, autoOpen: bool, closedAny: bool)
    ensures var cur := if autoOpen && closedAny then StartMonitor(start, req, decision) else start;
      StartOpens(cur.active, decision) == StartOpens(start.active, decision)
  {
  }

  /** The monitor after visiting a tracker: started once more when it closed. */
  lemma MonitorStep(start: Monitor, req: Request, decision: Signal, autoOpen: bool, closedAny: bool, close: bool)
    ensures var cur := if autoOpen && closedAny then StartMonitor(start, req, decision) else start;
      (if close && autoOpen then StartMonitor(cur, req, decision) else cur)
        == if autoOpen && (closedAny || close) then StartMonitor(start, req, decision) else start
  {
    StartMonitorIdempotent(start, req, decision);
  }

  ghost predicate Filed(m: map<string, Tracker>) {
    forall k :: k in m ==> SymbolOf(m[k].position) == k
  }

  /** An opened position is recorded under the symbol it was opened for. */
  lemma OutcomeSymbol(req: Request, decision: Signal, mk: Market)
    requires Outcome(req, decision, mk).Some?
    ensures Outcome(req, decision, mk).value.symbol == req.symbol
  {
  }

  /** The tick keeps every tracker filed under its symbol. */
  lemma TickFiled(c: Config, m: map<string, Tracker>, active: bool, decision: Signal, mk: Market)
    requires Filed(m)
    ensures Filed(AfterTick(c, m, active, decision, mk))
  {
    var r := AfterTick(c, m, active, decision, mk);
    var seed := Reentry(c, active, decision, mk);
    if seed.Some? {
      OutcomeSymbol(RequestOf(c), decision, mk);
    }
    forall k | k in r ensures SymbolOf(r[k].position) == k {
      if k in m {
        EvaluateFacts(c, m[k]);
      }
    }
  }

  /** What the window's trackers tell the exchange module about a symbol. */
  function RememberedOf(t: Tracker): BinanceApi.Remembered {
    match t.position
    case Polled(p) => BinanceApi.Remembered(p.entryPrice, p.leverage, Some(p.amountUsd))
    case Opened(d) => BinanceApi.Remembered(Some(d.entryPrice), d.leverage, Some(d.amountUsd))
  }

  function Remembered(m: map<string, Tracker>): map<string, BinanceApi.Remembered> {
    map k | k in m :: RememberedOf(m[k])
  }

  function NewTracker(stop: real): BinanceApi.Position -> Tracker {
    p => Tracker(Polled(p), 0.0, Some(stop))
  }

  function Refresh(t: Tracker, p: BinanceApi.Position): Tracker {
    t.(position := Polled(p))
  }

  function PolledSymbol(p: BinanceApi.Position): string { p.symbol }

  /** The tracker map after a poll of `ps`. */
  function Reconciled(m: map<string, Tracker>, ps: seq<BinanceApi.Position>, stop: real): map<string, Tracker> {
    Risk.Reconcile(m, ps, PolledSymbol, NewTracker(stop), Refresh)
  }

  /** After a poll the trackers are keyed by exactly the polled symbols;
      with one position per symbol, a known symbol keeps its trigger and
      water mark and takes the new position, and a new one starts at the
      default trigger and a water mark of 0; polling the same list again
      changes nothing. */
  lemma ReconciledFacts(m: map<string, Tracker>, ps: seq<BinanceApi.Position>, stop: real)
    ensures Reconciled(m, ps, stop).Keys == set i | 0 <= i < |ps| :: ps[i].symbol
    ensures Risk.DistinctKeys(ps, PolledSymbol) ==>
      forall i :: 0 <= i < |ps| ==>
        var r := Reconciled(m, ps, stop); var k := ps[i].symbol;
        k in r
        && (k in m ==> r[k] == m[k].(position := Polled(ps[i])))
        && (k !in m ==> r[k] == Tracker(Polled(ps[i]), 0.0, Some(stop)))
    ensures Risk.DistinctKeys(ps, PolledSymbol) ==> Reconciled(Reconciled(m, ps, stop), ps, stop) == Reconciled(m, ps, stop)
  {
    Risk.ReconcileKeys(m, ps, PolledSymbol, NewTracker(stop), Refresh);
    assert Risk.KeysOf(ps, PolledSymbol) == set i | 0 <= i < |ps| :: ps[i].symbol;
    if Risk.DistinctKeys(ps, PolledSymbol) {
      forall i | 0 <= i < |ps|
        ensures var r := Reconciled(m, ps, stop); var k := ps[i].symbol;
          k in r
          && (k in m ==> r[k] == m[k].(position := Polled(ps[i])))
          && (k !in m ==> r[k] == Tracker(Polled(ps[i]), 0.0, Some(stop)))
      {
        Risk.ReconcileValue(m, ps, PolledSymbol, NewTracker(stop), Refresh, i);
      }
      Risk.ReconcileIdempotent(m, ps, PolledSymbol, NewTracker(stop), Refresh);
    }
  }

  class Window {
    var config: Config
    var trackers: map<string, Tracker>
    var emptyCount: nat
    var monitoringSignal: bool
    var pending: seq<Request>
    var decisionValue: Signal
    var lastPrice: real
    var alertAboveTriggered: bool
    var alertBelowTriggered: bool
    /** The calls made to the exchange module, oldest first. */
    var calls: seq<Call>

    /** Every tracker is filed under its position's symbol. */
    ghost predicate Valid()
      reads this
    {
      forall k :: k in trackers ==> SymbolOf(trackers[k].position) == k
    }

    function MonitorState(): Monitor
      reads this
    {
      Monitor(monitoringSignal, pending)
    }

    /** The window as it starts, with the default settings (saved settings
        and trackers are not part of this model). */
    constructor ()
      ensures Valid() && trackers == map[] && emptyCount == 0 && !monitoringSignal && pending == []
      ensures decisionValue == Wait && lastPrice == 0.0 && calls == []
      ensures !alertAboveTriggered && !alertBelowTriggered
      ensures config == Config(10.0, -3.0, 3.0, 5.0, 10.0, 0.0, 0.0, 10.0, 14, "BTCUSDT", false, true, true, false)
    {
      config := Config(10.0, -3.0, 3.0, 5.0, 10.0, 0.0, 0.0, 10.0, 14, "BTCUSDT", false, true, true, false);
      trackers := map[];
      emptyCount := 0;
      monitoringSignal := false;
      pending := [];
      decisionValue := Wait;
      lastPrice := 0.0;
      alertAboveTriggered := false;
      alertBelowTriggered := false;
      calls := [];
    }

    /** `check_parameters_changes`: the numeric settings replaced and both
        alerts re-armed. `None` stands for a field `int`/`float` rejects,
        which leaves everything as it was. */
    method CheckParametersChanges(fields: Option<Settings>)
      modifies `config, `alertAboveTriggered, `alertBelowTriggered
      ensures fields.None? ==> config == old(config) && alertAboveTriggered == old(alertAboveTriggered)
                               && alertBelowTriggered == old(alertBelowTriggered)
      ensures fields.Some? ==> var f := fields.value;
        config == old(config).(leverage := f.leverage, defaultStopLoss := f.defaultStopLoss,
                               trailing16To30 := f.trailing16To30, trailing31To50 := f.trailing31To50,
                               trailingAbove50 := f.trailingAbove50, alertAbove := f.alertAbove,
                               alertBelow := f.alertBelow, usdAmount := f.usdAmount, rsiPeriod := f.rsiPeriod)
        && !alertAboveTriggered && !alertBelowTriggered
    {
      if fields.Some? {
        var f := fields.value;
        config := config.(leverage := f.leverage, defaultStopLoss := f.defaultStopLoss,
                          trailing16To30 := f.trailing16To30, trailing31To50 := f.trailing31To50,
                          trailingAbove50 := f.trailingAbove50, alertAbove := f.alertAbove,
                          alertBelow := f.alertBelow, usdAmount := f.usdAmount, rsiPeriod := f.rsiPeriod);
        alertAboveTriggered := false;
        alertBelowTriggered := false;
      }
    }

    /** The tracker part of `update_positions_display`. */
    method UpdatePositionsDisplay(positions: seq<BinanceApi.Position>)
      requires Valid()
      modifies `trackers
      ensures Valid()
      ensures trackers == Reconciled(old(trackers), positions, config.defaultStopLoss)
    {
      var stop := config.defaultStopLoss;
      var ids: set<string> := {};
      var i := 0;
      while i < |positions|
        invariant 0 <= i <= |positions|
        invariant trackers == Risk.Upsert(old(trackers), positions[..i], PolledSymbol, NewTracker(stop), Refresh)
        invariant ids == Risk.KeysOf(positions[..i], PolledSymbol)
        invariant Valid()
      {
        var p := positions[i];
        Risk.UpsertSnoc(old(trackers), positions, PolledSymbol, NewTracker(stop), Refresh, i);
        ids := ids + {p.symbol};
        if p.symbol !in trackers {
          trackers := trackers[p.symbol := NewTracker(stop)(p)];
        } else {
          trackers := trackers[p.symbol := Refresh(trackers[p.symbol], p)];
        }
        i := i + 1;
      }
      assert positions[..i] == positions;
      ghost var upserted := trackers;
      var stale := trackers.Keys;
      while stale != {}
        invariant stale <= upserted.Keys
        invariant trackers == map k | k in upserted && (k in ids || k in stale) :: upserted[k]
        invariant Valid()
      {
        var pid :| pid in stale;
        if pid !in ids {
          trackers := trackers - {pid};
        }
        stale := stale - {pid};
      }
    }

    /** `fetch_open_positions` of the window: the exchange module is asked
        for the positions with what the trackers remember (`reply` is its
        account request, `None` when that failed), then the trackers are
        reconciled and the debounce runs. `mk` is what the exchange answers
        when the monitor opens a position. */
    method FetchOpenPositions(reply: Option<seq<BinanceApi.AssetInfo>>, mk: Market)
      requires Valid()
      modifies `trackers, `emptyCount, `monitoringSignal, `pending, `calls
      ensures Valid()
      ensures var data := if reply.None? then [] else BinanceApi.Positions(reply.value, Remembered(old(trackers)));
        var d := Control.Debounce(old(emptyCount), old(monitoringSignal), config.autoOpen, Some(data != []));
        var req := RequestOf(config);
        var reconciled := Reconciled(old(trackers), data, config.defaultStopLoss);
        var opens := d.start && StartOpens(d.monitoring, decisionValue);
        var outcome := Outcome(req, decisionValue, mk);
        emptyCount == d.emptyCount
        && MonitorState() == (if d.start then StartMonitor(Monitor(d.monitoring, old(pending)), req, decisionValue)
                              else Monitor(d.monitoring, old(pending)))
        && calls == old(calls) + (if opens then [OpenCallOf(req, decisionValue)] else [])
        && trackers == (if opens && outcome.Some? then reconciled[req.symbol := Seed(config.defaultStopLoss, outcome.value)]
                        else reconciled)
    {
      var data := BinanceApi.FetchOpenPositions(reply, Remembered(trackers));
      UpdatePositionsDisplay(data);
      if data != [] {
        monitoringSignal := false;
        emptyCount := 0;
      } else {
        emptyCount := emptyCount + 1;
      }
      if data == [] && config.autoOpen && !monitoringSignal && emptyCount > 3 {
        var _ := OpenNewPositionAfterClose(mk);
      }
    }

    /** `open_new_position_after_close`, which starts the monitor with the
        selected symbol, the default amount and the default leverage. The
        result says whether a tracker was seeded. */
    method OpenNewPositionAfterClose(mk: Market) returns (seeded: bool)
      modifies `monitoringSignal, `pending, `calls, `trackers
      ensures old(Valid()) ==> Valid()
      ensures var req := RequestOf(config); var outcome := Outcome(req, decisionValue, mk);
        var opens := StartOpens(old(monitoringSignal), decisionValue);
        MonitorState() == StartMonitor(old(MonitorState()), req, decisionValue)
        && calls == old(calls) + (if opens then [OpenCallOf(req, decisionValue)] else [])
        && seeded == (opens && outcome.Some?)
        && trackers == if seeded then old(trackers)[req.symbol := Seed(config.defaultStopLoss, outcome.value)] else old(trackers)
    {
      seeded := false;
      if monitoringSignal {
        return;
      }
      monitoringSignal := true;
      seeded := RunCheckSignal(RequestOf(config), mk);
    }

    /** The body of `check_signal`: a buy or sell decision opens a position
        and clears the flag, anything else sets up another look. */
    method RunCheckSignal(req: Request, mk: Market) returns (seeded: bool)
      modifies `monitoringSignal, `pending, `calls, `trackers
      ensures old(Valid()) ==> Valid()
      ensures var outcome := Outcome(req, decisionValue, mk);
        MonitorState() == CheckSignalMonitor(old(MonitorState()), req, decisionValue)
        && calls == old(calls) + (if decisionValue != Wait then [OpenCallOf(req, decisionValue)] else [])
        && seeded == (decisionValue != Wait && outcome.Some?)
        && trackers == if seeded then old(trackers)[req.symbol := Seed(config.defaultStopLoss, outcome.value)] else old(trackers)
    {
      seeded := false;
      if decisionValue != Wait {
        calls := calls + [OpenCallOf(req, decisionValue)];
        var details := Outcome(req, decisionValue, mk);
        if details.Some? {
          OutcomeSymbol(req, decisionValue, mk);
          trackers := trackers[req.symbol := Seed(config.defaultStopLoss, details.value)];
          seeded := true;
        }
        monitoringSignal := false;
      } else {
        pending := pending + [req];
      }
    }

    /** A `check_signal` timer fires: timer `i` of the pending ones. */
    method FireTimer(i: nat, mk: Market)
      requires Valid() && i < |pending|
      modifies `monitoringSignal, `pending, `calls, `trackers
      ensures Valid()
      ensures var req := old(pending)[i]; var rest := old(pending)[..i] + old(pending)[i + 1..];
        var outcome := Outcome(req, decisionValue, mk);
        MonitorState() == CheckSignalMonitor(Monitor(old(monitoringSignal), rest), req, decisionValue)
        && calls == old(calls) + (if decisionValue != Wait then [OpenCallOf(req, decisionValue)] else [])
        && trackers == if decisionValue != Wait && outcome.Some?
                       then old(trackers)[req.symbol := Seed(config.defaultStopLoss, outcome.value)] else old(trackers)
    {
      var req := pending[i];
      pending := pending[..i] + pending[i + 1..];
      var _ := RunCheckSignal(req, mk);
    }

    /** `check_decision_indicators`, over the candles the request returned. */
    method CheckDecisionIndicators(response: Option<seq<Row>>)
      modifies `decisionValue
      ensures decisionValue == Decision(BinanceApi.DecideTradeDirection(response, config.rsiPeriod, config.useSma,
                                                                        config.useRsi, config.useVolume))
    {
      decisionValue := Decision(BinanceApi.DecideTradeDirection(response, config.rsiPeriod, config.useSma,
                                                                config.useRsi, config.useVolume));
    }

    /** `update_price_label`: the new last price and both alerts; the results
        say which alert fired. */
    method UpdatePriceLabel(price: real) returns (aboveFires: bool, belowFires: bool)
      modifies `lastPrice, `alertAboveTriggered, `alertBelowTriggered
      ensures var a := Control.Alert(true, config.alertAbove, old(alertAboveTriggered), price);
        aboveFires == a.fires && alertAboveTriggered == a.triggered
      ensures var b := Control.Alert(false, config.alertBelow, old(alertBelowTriggered), price);
        belowFires == b.fires && alertBelowTriggered == b.triggered
      ensures lastPrice == price
    {
      lastPrice := price;
      aboveFires := false;
      belowFires := false;
      if config.alertAbove > 0.0 && price >= config.alertAbove {
        if !alertAboveTriggered {
          alertAboveTriggered := true;
          aboveFires := true;
        }
      } else {
        alertAboveTriggered := false;
      }
      if config.alertBelow > 0.0 && price <= config.alertBelow {
        if !alertBelowTriggered {
          alertBelowTriggered := true;
          belowFires := true;
        }
      } else {
        alertBelowTriggered := false;
      }
    }

    /** The window's `close_position_market`: the exchange module is asked to
        close and the tracker under the symbol is dropped. */
    method ClosePositionMarket(t: Tracked)
      modifies `trackers, `calls
      ensures trackers == old(trackers) - {SymbolOf(t)}
      ensures calls == old(calls) + [CloseCall(t)]
    {
      calls := calls + [CloseCall(t)];
      trackers := trackers - {SymbolOf(t)};
    }

    /** How far the tick over the copy `m` (verdicts `vs`) has got with
        `todo` still to visit: the keys to delete, whether the tracker under
        the selected symbol is no longer the copy's, the trackers, the
        monitor and the calls made. */
    ghost predicate TickProgress(m: map<string, Tracker>, vs: map<string, Verdict>, mk: Market, todo: set<string>,
                                 closed: set<string>, replaced: bool, sent: seq<Call>, start: Monitor, before: seq<Call>)
      reads this
    {
      var seed := Reentry(config, start.active, decisionValue, mk);
      var opens := OpensOnClose(config, start.active, decisionValue);
      todo <= m.Keys && m.Keys == vs.Keys && Filed(m)
      && closed == ClosedKeys(vs, todo)
      && replaced == (seed.Some? && closed != {})
      && trackers == TickLive(m, vs, todo, seed, config.selectedSymbol)
      && MonitorState() == (if config.autoOpen && closed != {}
                            then StartMonitor(start, RequestOf(config), decisionValue) else start)
      && calls == before + sent && |sent| == |closed| * (if opens then 2 else 1)
      && forall o :: o in sent <==> SentBy(m, vs, todo, opens, OpenCallOf(RequestOf(config), decisionValue), o)
    }

    /** What the tick does with the verdict `v` on tracker `k`, whose
        position is `t`: store the updated tracker where the copy's tracker
        is still the one under `k`, then close and ask for a new entry. */
    method ApplyVerdict(k: string, t: Tracked, v: Verdict, replaced: bool, mk: Market) returns (replaced': bool)
      requires SymbolOf(t) == k
      modifies `trackers, `calls, `monitoringSignal, `pending
      ensures var req := RequestOf(config); var outcome := Outcome(req, decisionValue, mk);
        var opens := v.close && config.autoOpen && StartOpens(old(monitoringSignal), decisionValue);
        var seed := if opens && outcome.Some? then Some(Seed(config.defaultStopLoss, outcome.value)) else None;
        trackers == Applied(old(trackers), k, v, replaced, config.selectedSymbol, seed)
        && calls == old(calls) + (if v.close then [CloseCall(t)] + (if opens then [OpenCallOf(req, decisionValue)] else []) else [])
        && MonitorState() == (if v.close && config.autoOpen then StartMonitor(old(MonitorState()), req, decisionValue)
                              else old(MonitorState()))
        && replaced' == (replaced || seed.Some?)
    {
      replaced' := replaced;
      if !(k == config.selectedSymbol && replaced) {
        trackers := trackers[k := v.tracker];
      }
      if v.close {
        ClosePositionMarket(t);
        if config.autoOpen {
          var seeded := OpenNewPositionAfterClose(mk);
          replaced' := replaced || seeded;
        }
      }
    }

    /** One visit of the tick: tracker `k`. */
    method VisitTracker(m: map<string, Tracker>, vs: map<string, Verdict>, mk: Market, todo: set<string>, k: string,
                        closed: set<string>, replaced: bool, ghost sent: seq<Call>, ghost start: Monitor, ghost before: seq<Call>)
      returns (closed': set<string>, replaced': bool, ghost sent': seq<Call>)
      requires k in todo && TickProgress(m, vs, mk, todo, closed, replaced, sent, start, before)
      modifies `trackers, `calls, `monitoringSignal, `pending
      ensures TickProgress(m, vs, mk, todo - {k}, closed', replaced', sent', start, before)
    {
      var t := m[k];
      var v := vs[k];
      ghost var req := RequestOf(config);
      ghost var seed := Reentry(config, start.active, decisionValue, mk);
      ghost var opens := OpensOnClose(config, start.active, decisionValue);
      BaseStep(m, vs, todo, k);
      LiveStep(m, vs, todo, k, seed, config.selectedSymbol);
      OpensStable(start, req, decisionValue, config.autoOpen, closed != {});
      MonitorStep(start, req, decisionValue, config.autoOpen, closed != {}, v.close);
      replaced' := ApplyVerdict(k, t.position, v, replaced, mk);
      closed' := if v.close then closed + {k} else closed;
      ghost var sentNow := if v.close then [CloseCall(t.position)] + (if opens then [OpenCallOf(req, decisionValue)] else []) else [];
      SentStep(m, vs, todo, k, opens, OpenCallOf(req, decisionValue), sent, sentNow);
      AppendAssociative(before, sent, sentNow);
      sent' := sent + sentNow;
    }

    /** The loop of the tick: every tracker of the copy `m` visited once, in
        some order; `closed` is the list of trackers to delete. */
    method VisitAll(m: map<string, Tracker>, vs: map<string, Verdict>, mk: Market)
      returns (closed: set<string>, replaced: bool, ghost sent: seq<Call>)
      requires trackers == m && m.Keys == vs.Keys && Filed(m)
      modifies `trackers, `calls, `monitoringSignal, `pending
      ensures TickProgress(m, vs, mk, {}, closed, replaced, sent, old(MonitorState()), old(calls))
    {
      var todo := m.Keys;
      closed := {};
      replaced := false;
      sent := [];
      assert ClosedKeys(vs, todo) == {};
      assert trackers == TickLive(m, vs, todo, Reentry(config, monitoringSignal, decisionValue, mk), config.selectedSymbol);
      while todo != {}
        invariant TickProgress(m, vs, mk, todo, closed, replaced, sent, old(MonitorState()), old(calls))
        decreases |todo|
      {
        var k :| k in todo;
        closed, replaced, sent := VisitTracker(m, vs, mk, todo, k, closed, replaced, sent, old(MonitorState()), old(calls));
        todo := todo - {k};
      }
    }

    /** `check_auto_close_positions`, over a copy of the trackers taken at the
        start; `mk` is what the exchange answers to each open. */
    method CheckAutoClosePositions(mk: Market)
      requires Valid()
      modifies `trackers, `calls, `monitoringSignal, `pending
      ensures Valid()
      ensures trackers == AfterTick(config, old(trackers), old(monitoringSignal), decisionValue, mk)
      ensures MonitorState() ==
        if config.autoOpen && Closing(config, old(trackers)) != {}
        then StartMonitor(old(MonitorState()), RequestOf(config), decisionValue)
        else old(MonitorState())
      ensures |calls| == |old(calls)| + |Closing(config, old(trackers))|
                           * (if OpensOnClose(config, old(monitoringSignal), decisionValue) then 2 else 1)
      ensures calls[..|old(calls)|] == old(calls)
      ensures forall o :: o in calls[|old(calls)|..] <==>
        (exists k :: k in old(trackers) && Evaluate(config, old(trackers)[k]).close && o == CloseCall(old(trackers)[k].position))
        || (OpensOnClose(config, old(monitoringSignal), decisionValue) && Closing(config, old(trackers)) != {}
            && o == OpenCallOf(RequestOf(config), decisionValue))
    {
      var snapshot := trackers;
      var vs := Verdicts(config, snapshot);
      ghost var opens := OpensOnClose(config, monitoringSignal, decisionValue);
      ghost var open := OpenCallOf(RequestOf(config), decisionValue);
      var toDelete, replaced, sent := VisitAll(snapshot, vs, mk);
      ClosingIsClosedKeys(config, snapshot);
      forall o ensures SentBy(snapshot, vs, {}, opens, open, o) <==>
        (exists k :: k in snapshot && Evaluate(config, snapshot[k]).close && o == CloseCall(snapshot[k].position))
        || (opens && (exists k :: k in snapshot && Evaluate(config, snapshot[k]).close) && o == open)
      {
        TickDoneCalls(config, snapshot, opens, open, o);
      }
      TickFiled(config, snapshot, old(monitoringSignal), decisionValue, mk);
      trackers := trackers - toDelete;
      assert calls[|old(calls)|..] == sent;
    }
  }
}
