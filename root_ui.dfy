// The KuCoin window of `ui.py`, whose calls are those of `kucoin/old/api.py`:
// the tracker map keyed by position id, the tick that closes positions, the
// reconciliation with each poll, the signal monitor that each empty poll
// starts, the candle decision and the checkbox handler.
module RootUi {
  import opened Common
  import opened Indicators
  import Risk
  import KucoinOldApi

  /** The settings the window reads. */
  datatype Config = Config(
    leverage: real, defaultStopLoss: real,
    trailing16To30: real, trailing31To50: real, trailingAbove50: real,
    contractQty: real, selectedSymbol: string, autoOpen: bool,
    useSma: bool, useRsi: bool, useVolume: bool, rsiPeriod: nat)

  /** The fields of a KuCoin position the window reads; a missing margin or
      profit is `None`. */
  datatype Position = Position(id: string, symbol: string, posMargin: Option<real>, unrealisedPnl: Option<real>)

  /** `dict.get(field, default)`. */
  function GetOr(x: Option<real>, default: real): real {
    if x.Some? then x.value else default
  }

  datatype Tracker = Tracker(position: Position, maxPnlPercent: real, triggerStopLossPercent: real)

  /** The profit percentage of the tick, with no fee deducted; `None` for a
      zero margin, which the tick skips (a missing margin counts as 1). */
  function TickPnl(p: Position): Option<real> {
    var margin := GetOr(p.posMargin, 1.0);
    if margin == 0.0 then None else Some(GetOr(p.unrealisedPnl, 0.0) / margin * 100.0)
  }

  /** The profit percentage the table shows, 0 for a zero or missing margin. */
  function DisplayPnl(p: Position): real {
    var margin := GetOr(p.posMargin, 0.0);
    if margin != 0.0 then GetOr(p.unrealisedPnl, 0.0) / margin * 100.0 else 0.0
  }

  /** With a margin present the tick and the table agree on the profit; they
      differ only on a missing one, which the tick takes as 1 and the table
      as 0. */
  lemma TickPnlIsDisplayPnl(p: Position)
    ensures p.posMargin.Some? && p.posMargin.value != 0.0 ==> TickPnl(p) == Some(DisplayPnl(p))
    ensures p.posMargin == Some(0.0) ==> TickPnl(p).None? && DisplayPnl(p) == 0.0
    ensures p.posMargin.None? ==> TickPnl(p) == Some(GetOr(p.unrealisedPnl, 0.0) * 100.0) && DisplayPnl(p) == 0.0
  {
  }

  /** The if/elif chain that decides the level. */
  function BandStop(c: Config, pnl: real): real {
    if 7.0 <= pnl <= 9.0 then pnl - 5.0
    else if 10.0 <= pnl <= 30.0 then pnl - c.trailing16To30
    else if 31.0 <= pnl <= 50.0 then pnl - c.trailing31To50
    else if pnl > 50.0 then pnl - c.trailingAbove50
    else c.defaultStopLoss
  }

  /** The level as the tick computes it: a first `if` gives pnl - 3 on
      [4.5, 6.9], and the chain that follows sets the level again in every
      case. */
  method CalculatedStop(c: Config, pnl: real) returns (stop: real)
    ensures stop == BandStop(c, pnl)
    ensures 4.5 <= pnl <= 6.9 ==> stop == c.defaultStopLoss
  {
    if 4.5 <= pnl <= 6.9 {
      stop := pnl - 3.0;
    }
    if 7.0 <= pnl <= 9.0 {
      stop := pnl - 5.0;
    } else if 10.0 <= pnl <= 30.0 {
      stop := pnl - c.trailing16To30;
    } else if 31.0 <= pnl <= 50.0 {
      stop := pnl - c.trailing31To50;
    } else if pnl > 50.0 {
      stop := pnl - c.trailingAbove50;
    } else {
      stop := c.defaultStopLoss;
    }
  }

  /** The table band by band, including the ranges it leaves to the default:
      below 7% (so [4.5, 6.9] too), (9, 10) and (30, 31). */
  lemma BandStopBands(c: Config, pnl: real)
    ensures var s := BandStop(c, pnl); var d := c.defaultStopLoss;
      (pnl < 7.0 ==> s == d)
      && (7.0 <= pnl <= 9.0 ==> s == pnl - 5.0)
      && (9.0 < pnl < 10.0 ==> s == d)
      && (10.0 <= pnl <= 30.0 ==> s == pnl - c.trailing16To30)
      && (30.0 < pnl < 31.0 ==> s == d)
      && (31.0 <= pnl <= 50.0 ==> s == pnl - c.trailing31To50)
      && (pnl > 50.0 ==> s == pnl - c.trailingAbove50)
  {
  }

  /** What the tick decides for one tracker. */
  datatype Verdict = Skipped | Kept(tracker: Tracker) | Closed(tracker: Tracker)

  function Evaluate(c: Config, t: Tracker): Verdict {
    match TickPnl(t.position)
    case None => Skipped
    case Some(pnl) =>
      var trigger := Risk.Ratchet(t.triggerStopLossPercent, BandStop(c, pnl), pnl);
      var u := t.(triggerStopLossPercent := trigger, maxPnlPercent := Risk.WaterMark(t.maxPnlPercent, pnl));
      if pnl <= trigger then Closed(u) else Kept(u)
  }

  /** The tick skips a zero margin; otherwise in profit the trigger never
      moves down and the water mark is the running maximum, at a loss both
      are reset (the trigger to the default, the mark to the loss), and the
      position closes exactly when the profit is at or below the trigger. */
  lemma EvaluateFacts(c: Config, t: Tracker)
    ensures Evaluate(c, t).Skipped? <==> GetOr(t.position.posMargin, 1.0) == 0.0
    ensures match TickPnl(t.position)
      case None => true
      case Some(pnl) =>
        var v := Evaluate(c, t);
        !v.Skipped?
        && v.tracker.position == t.position
        && (pnl >= 0.0 ==>
              (v.tracker.triggerStopLossPercent >= t.triggerStopLossPercent
               && v.tracker.maxPnlPercent >= t.maxPnlPercent && v.tracker.maxPnlPercent >= pnl))
        && (pnl < 0.0 ==> v.tracker.triggerStopLossPercent == c.defaultStopLoss && v.tracker.maxPnlPercent == pnl)
        && (v.Closed? <==> pnl <= v.tracker.triggerStopLossPercent)
  {
    match TickPnl(t.position)
    case None =>
    case Some(pnl) =>
      Risk.RatchetFacts(t.triggerStopLossPercent, BandStop(c, pnl), pnl);
      Risk.WaterMarkFacts(t.maxPnlPercent, pnl);
  }

  /** What the monitor captured when it started. */
  datatype Request = Request(symbol: string, size: real, leverage: real)

  /** The `monitoring_signal` flag and the `check_signal` timers still to fire. */
  datatype Monitor = Monitor(active: bool, pending: seq<Request>)

  /** What the window asks of the exchange module. */
  datatype Call = CloseCall(position: Position) | OpenCall(symbol: string, side: string, size: real, leverage: real)

  function SideName(s: Signal): string {
    match s
    case Buy => "buy"
    case Sell => "sell"
    case Wait => "wait"
  }

  function RequestOf(c: Config): Request {
    Request(c.selectedSymbol, c.contractQty, c.leverage)
  }

  function OpenCallOf(req: Request, decision: Signal): Call {
    OpenCall(req.symbol, SideName(decision), req.size, req.leverage)
  }

  /** One `check_signal`: a buy or sell opens and clears the flag, anything
      else sets up another look. The flag is not consulted. */
  function CheckSignalMonitor(m: Monitor, req: Request, decision: Signal): Monitor {
    if decision != Wait then Monitor(false, m.pending) else Monitor(m.active, m.pending + [req])
  }

  /** `monitor_trade_signals`: nothing while active, otherwise raise the flag
      and run `check_signal` at once. */
  function StartMonitor(m: Monitor, req: Request, decision: Signal): Monitor {
    if m.active then m else CheckSignalMonitor(Monitor(true, m.pending), req, decision)
  }

  /** A second start right after the first leaves the monitor as the first
      one did, and a start while active changes nothing. */
  lemma StartMonitorIdempotent(m: Monitor, req: Request, decision: Signal)
    ensures var once := StartMonitor(m, req, decision); StartMonitor(once, req, decision) == once
    ensures m.active ==> StartMonitor(m, req, decision) == m
    ensures !m.active && decision != Wait ==> StartMonitor(m, req, decision) == Monitor(false, m.pending)
  {
  }

  /** Whether a start of the monitor opens a position. */
  predicate StartOpens(active: bool, decision: Signal) {
    !active && decision != Wait
  }

  /** Whether each close of a tick opens a new position. */
  predicate OpensOnClose(c: Config, active: bool, decision: Signal) {
    c.autoOpen && StartOpens(active, decision)
  }

  /** During a tick the monitor, once a close has started it, is idle
      exactly when it was idle at the start and the decision is buy or sell. */
  lemma OpensStable(start: Monitor, req: Request, decision: Signal, autoOpen: bool, closedAny: bool)
    ensures var cur := if autoOpen && closedAny then StartMonitor(start, req, decision) else start;
      StartOpens(cur.active, decision) == StartOpens(start.active, decision)
  {
  }

  /** The monitor after visiting a tracker: started once more when it closed. */
  lemma MonitorStep(start: Monitor, req: Request, decision: Signal, autoOpen: bool, closedAny: bool, close: bool)
    ensures var cur := if autoOpen && closedAny then StartMonitor(start, req, decision) else start;
      (if close && autoOpen then StartMonitor(cur, req, decision) else cur)
        == if autoOpen && (closedAny || close) then StartMonitor(start, req, decision) else start
  {
    StartMonitorIdempotent(start, req, decision);
  }

  /** The verdict of every tracker when the tick starts. */
  function Verdicts(c: Config, m: map<string, Tracker>): map<string, Verdict> {
    map k | k in m :: Evaluate(c, m[k])
  }

  /** The trackers a tick closes. */
  function Closing(c: Config, m: map<string, Tracker>): set<string> {
    set k | k in m && Evaluate(c, m[k]).Closed?
  }

  /** The tracker map after a tick: the closed trackers gone, the skipped
      ones as they were, the others with their new trigger and water mark. */
  function AfterTick(c: Config, m: map<string, Tracker>): map<string, Tracker> {
    map k | k in m && !Evaluate(c, m[k]).Closed? ::
      match Evaluate(c, m[k])
      case Skipped => m[k]
      case Kept(u) => u
      case Closed(u) => u
  }

  /** The visited trackers the tick closes. */
  function ClosedKeys(vs: map<string, Verdict>, todo: set<string>): set<string> {
    set k | k in vs && k !in todo && vs[k].Closed?
  }

  /** A tracker during the tick: as it was until visited, then as its
      verdict left it. */
  function Visited(m: map<string, Tracker>, vs: map<string, Verdict>, todo: set<string>, k: string): Tracker
    requires k in m && k in vs
  {
    if k in todo then m[k]
    else match vs[k]
         case Skipped => m[k]
         case Kept(u) => u
         case Closed(u) => u
  }

  /** The tracker map part way through the tick: nothing is deleted before
      the loop ends. */
  function TickTrackers(m: map<string, Tracker>, vs: map<string, Verdict>, todo: set<string>): map<string, Tracker> {
    map k | k in m && k in vs :: Visited(m, vs, todo, k)
  }

  /** Whether `o` is a call the tick has made with `todo` still to visit. */
  predicate SentBy(m: map<string, Tracker>, vs: map<string, Verdict>, todo: set<string>, opens: bool, open: Call, o: Call) {
    (exists k :: k in m && k in vs && k !in todo && vs[k].Closed? && o == CloseCall(m[k].position))
    || (opens && ClosedKeys(vs, todo) != {} && o == open)
  }

  /** Visiting `k` updates its tracker and, when it closes, adds it to the
      keys to delete. */
  lemma TickStep(m: map<string, Tracker>, vs: map<string, Verdict>, todo: set<string>, k: string)
    requires k in todo && todo <= m.Keys && m.Keys == vs.Keys
    ensures TickTrackers(m, vs, todo - {k}) ==
      if vs[k].Skipped? then TickTrackers(m, vs, todo) else TickTrackers(m, vs, todo)[k := vs[k].tracker]
    ensures ClosedKeys(vs, todo - {k}) == ClosedKeys(vs, todo) + (if vs[k].Closed? then {k} else {})
    ensures k !in ClosedKeys(vs, todo)
  {
  }

  /** The calls after visiting `k`: its close, followed by an open when
      closes open new positions. */
  lemma SentStep(m: map<string, Tracker>, vs: map<string, Verdict>, todo: set<string>, k: string,
                 opens: bool, open: Call, sent: seq<Call>, sentNow: seq<Call>)
    requires k in todo && todo <= m.Keys && m.Keys == vs.Keys
    requires forall o :: o in sent <==> SentBy(m, vs, todo, opens, open, o)
    requires sentNow == if vs[k].Closed? then [CloseCall(m[k].position)] + (if opens then [open] else []) else []
    ensures forall o :: o in sent + sentNow <==> SentBy(m, vs, todo - {k}, opens, open, o)
  {
    TickStep(m, vs, todo, k);
    forall o ensures o in sent + sentNow <==> SentBy(m, vs, todo - {k}, opens, open, o) {
      if o in sentNow {
        if o == CloseCall(m[k].position) {
          assert k in m && k in vs && k !in todo - {k} && vs[k].Closed? && o == CloseCall(m[k].position);
        } else {
          assert k in ClosedKeys(vs, todo - {k});
        }
      }
      if SentBy(m, vs, todo - {k}, opens, open, o) && !SentBy(m, vs, todo, opens, open, o) {
        if exists j :: j in m && j in vs && j !in todo - {k} && vs[j].Closed? && o == CloseCall(m[j].position) {
          var j :| j in m && j in vs && j !in todo - {k} && vs[j].Closed? && o == CloseCall(m[j].position);
          assert j == k;
        } else {
          assert ClosedKeys(vs, todo) == {};
          assert vs[k].Closed?;
        }
      }
    }
  }

  /** Once every tracker is visited, dropping the closed ones gives the map
      after the tick. */
  lemma TickDoneTrackers(c: Config, m: map<string, Tracker>)
    ensures var vs := Verdicts(c, m); TickTrackers(m, vs, {}) - ClosedKeys(vs, {}) == AfterTick(c, m)
    ensures ClosedKeys(Verdicts(c, m), {}) == Closing(c, m)
  {
  }

  /** Once every tracker is visited, a call was made exactly for each closed
      position and, when closes open positions and some position closed, for
      the open. */
  lemma TickDoneCalls(c: Config, m: map<string, Tracker>, opens: bool, open: Call, o: Call)
    ensures SentBy(m, Verdicts(c, m), {}, opens, open, o) <==>
      (exists k :: k in m && Evaluate(c, m[k]).Closed? && o == CloseCall(m[k].position))
      || (opens && Closing(c, m) != {} && o == open)
  {
    var vs := Verdicts(c, m);
    TickDoneTrackers(c, m);
    if exists k :: k in m && Evaluate(c, m[k]).Closed? && o == CloseCall(m[k].position) {
      var k :| k in m && Evaluate(c, m[k]).Closed? && o == CloseCall(m[k].position);
      assert k in vs && vs[k].Closed?;
    }
  }

  ghost predicate Filed(m: map<string, Tracker>) {
    forall k :: k in m ==> m[k].position.id == k
  }

  /** The tick keeps every tracker filed under its position id. */
  lemma TickFiled(c: Config, m: map<string, Tracker>)
    requires Filed(m)
    ensures Filed(AfterTick(c, m))
  {
    forall k | k in AfterTick(c, m) ensures AfterTick(c, m)[k].position.id == k {
      EvaluateFacts(c, m[k]);
    }
  }

  function NewTracker(stop: real): Position -> Tracker {
    p => Tracker(p, if DisplayPnl(p) >= 10.0 then DisplayPnl(p) else 0.0, stop)
  }

  function Refresh(t: Tracker, p: Position): Tracker {
    t.(position := p)
  }

  function PositionId(p: Position): string { p.id }

  /** The tracker map after a poll of `ps`. */
  function Reconciled(m: map<string, Tracker>, ps: seq<Position>, stop: real): map<string, Tracker> {
    Risk.Reconcile(m, ps, PositionId, NewTracker(stop), Refresh)
  }

  /** After a poll the trackers are keyed by exactly the polled ids; with one
      position per id, a known id keeps its trigger and water mark and takes
      the new position, and a new one starts at the default trigger and a
      water mark of its profit from 10% on (else 0); polling the same list
      again changes nothing. */
  lemma ReconciledFacts(m: map<string, Tracker>, ps: seq<Position>, stop: real)
    ensures Reconciled(m, ps, stop).Keys == set i | 0 <= i < |ps| :: ps[i].id
    ensures Risk.DistinctKeys(ps, PositionId) ==>
      forall i :: 0 <= i < |ps| ==>
        var r := Reconciled(m, ps, stop); var k := ps[i].id;
        k in r
        && (k in m ==> r[k] == m[k].(position := ps[i]))
        && (k !in m ==> r[k] == Tracker(ps[i], if DisplayPnl(ps[i]) >= 10.0 then DisplayPnl(ps[i]) else 0.0, stop))
    ensures Risk.DistinctKeys(ps, PositionId) ==> Reconciled(Reconciled(m, ps, stop), ps, stop) == Reconciled(m, ps, stop)
  {
    Risk.ReconcileKeys(m, ps, PositionId, NewTracker(stop), Refresh);
    assert Risk.KeysOf(ps, PositionId) == set i | 0 <= i < |ps| :: ps[i].id;
    if Risk.DistinctKeys(ps, PositionId) {
      forall i | 0 <= i < |ps|
        ensures var r := Reconciled(m, ps, stop); var k := ps[i].id;
          k in r
          && (k in m ==> r[k] == m[k].(position := ps[i]))
          && (k !in m ==> r[k] == Tracker(ps[i], if DisplayPnl(ps[i]) >= 10.0 then DisplayPnl(ps[i]) else 0.0, stop))
      {
        Risk.ReconcileValue(m, ps, PositionId, NewTracker(stop), Refresh, i);
      }
      Risk.ReconcileIdempotent(m, ps, PositionId, NewTracker(stop), Refresh);
    }
  }

  /** The checkbox a state change comes from; `NoBox` is a call without one. */
  datatype Checkbox = NoBox | SmaBox | RsiBox | VolumeBox | AutoOpenBox

  class Window {
    var config: Config
    var trackers: map<string, Tracker>
    var monitoringSignal: bool
    var pending: seq<Request>
    var decisionValue: Signal
    /** The calls made to the exchange module, oldest first. */
    var calls: seq<Call>

    /** Every tracker is filed under its position's id. */
    ghost predicate Valid()
      reads this
    {
      forall k :: k in trackers ==> trackers[k].position.id == k
    }

    function MonitorState(): Monitor
      reads this
    {
      Monitor(monitoringSignal, pending)
    }

    /** The window as it starts, with the default settings. */
    constructor ()
      ensures Valid() && trackers == map[] && !monitoringSignal && pending == [] && decisionValue == Wait && calls == []
      ensures config == Config(20.0, -20.0, 5.0, 8.0, 10.0, 1.0, "XBTUSDTM", true, true, true, false, 14)
    {
      config := Config(20.0, -20.0, 5.0, 8.0, 10.0, 1.0, "XBTUSDTM", true, true, true, false, 14);
      trackers := map[];
      monitoringSignal := false;
      pending := [];
      decisionValue := Wait;
      calls := [];
    }

    /** `toggle_auto_open`: every checkbox passes itself, so the test for a
        missing checkbox always fails and the auto-open checkbox matches none
        of the indicator branches: the auto-open flag never changes. */
    method ToggleAutoOpen(checked: bool, box: Checkbox)
      modifies `config
      ensures box == SmaBox ==> config == old(config).(useSma := checked)
      ensures box == RsiBox ==> config == old(config).(useRsi := checked)
      ensures box == VolumeBox ==> config == old(config).(useVolume := checked)
      ensures box == AutoOpenBox ==> config == old(config)
      ensures box == NoBox ==> config == old(config).(autoOpen := checked)
      ensures box != NoBox ==> config.autoOpen == old(config).autoOpen
    {
      if box != NoBox {
        if box == SmaBox {
          config := config.(useSma := checked);
        } else if box == RsiBox {
          config := config.(useRsi := checked);
        } else if box == VolumeBox {
          config := config.(useVolume := checked);
        }
      } else {
        config := config.(autoOpen := checked);
      }
    }

    /** The tracker part of `update_positions_display`. */
    method UpdatePositionsDisplay(positions: seq<Position>)
      requires Valid()
      modifies `trackers
      ensures Valid()
      ensures trackers == Reconciled(old(trackers), positions, config.defaultStopLoss)
    {
      var stop := config.defaultStopLoss;
      var ids: set<string> := {};
      var i := 0;
      while i < |positions|
        invariant 0 <= i <= |positions|
        invariant trackers == Risk.Upsert(old(trackers), positions[..i], PositionId, NewTracker(stop), Refresh)
        invariant ids == Risk.KeysOf(positions[..i], PositionId)
        invariant Valid()
      {
        var p := positions[i];
        Risk.UpsertSnoc(old(trackers), positions, PositionId, NewTracker(stop), Refresh, i);
        ids := ids + {p.id};
        if p.id !in trackers {
          trackers := trackers[p.id := NewTracker(stop)(p)];
        } else {
          trackers := trackers[p.id := Refresh(trackers[p.id], p)];
        }
        i := i + 1;
      }
      assert positions[..i] == positions;
      ghost var upserted := trackers;
      var stale := trackers.Keys;
      while stale != {}
        invariant stale <= upserted.Keys
        invariant trackers == map k | k in upserted && (k in ids || k in stale) :: upserted[k]
        invariant Valid()
      {
        var pid :| pid in stale;
        if pid !in ids {
          trackers := trackers - {pid};
        }
        stale := stale - {pid};
      }
    }

    /** `fetch_open_positions` of the window over the positions the exchange
        module returned: the trackers are reconciled, and an empty poll starts
        the monitor at once when auto-open is on and no monitor is active. */
    method FetchOpenPositions(data: seq<Position>)
      requires Valid()
      modifies `trackers, `monitoringSignal, `pending, `calls
      ensures Valid()
      ensures trackers == Reconciled(old(trackers), data, config.defaultStopLoss)
      ensures var start := data == [] && config.autoOpen && !old(monitoringSignal);
        var req := RequestOf(config);
        MonitorState() == (if start then StartMonitor(old(MonitorState()), req, decisionValue) else old(MonitorState()))
        && calls == old(calls) + (if start && decisionValue != Wait then [OpenCallOf(req, decisionValue)] else [])
    {
      UpdatePositionsDisplay(data);
      if data == [] && config.autoOpen && !monitoringSignal {
        OpenNewPositionAfterClose();
      }
    }

    /** `open_new_position_after_close`, which starts the monitor with the
        selected symbol, the default quantity and the default leverage. */
    method OpenNewPositionAfterClose()
      modifies `monitoringSignal, `pending, `calls
      ensures var req := RequestOf(config);
        MonitorState() == StartMonitor(old(MonitorState()), req, decisionValue)
        && calls == old(calls) + (if StartOpens(old(monitoringSignal), decisionValue) then [OpenCallOf(req, decisionValue)] else [])
    {
      if monitoringSignal {
        return;
      }
      monitoringSignal := true;
      RunCheckSignal(RequestOf(config));
    }

    /** The body of `check_signal`: a buy or sell decision opens a position
        and clears the flag, anything else sets up another look. No tracker
        is seeded; the next poll creates it. */
    method RunCheckSignal(req: Request)
      modifies `monitoringSignal, `pending, `calls
      ensures MonitorState() == CheckSignalMonitor(old(MonitorState()), req, decisionValue)
      ensures calls == old(calls) + (if decisionValue != Wait then [OpenCallOf(req, decisionValue)] else [])
    {
      if decisionValue != Wait {
        calls := calls + [OpenCallOf(req, decisionValue)];
        monitoringSignal := false;
      } else {
        pending := pending + [req];
      }
    }

    /** A `check_signal` timer fires: timer `i` of the pending ones. */
    method FireTimer(i: nat)
      requires i < |pending|
      modifies `monitoringSignal, `pending, `calls
      ensures var req := old(pending)[i]; var rest := old(pending)[..i] + old(pending)[i + 1..];
        MonitorState() == CheckSignalMonitor(Monitor(old(monitoringSignal), rest), req, decisionValue)
        && calls == old(calls) + (if decisionValue != Wait then [OpenCallOf(req, decisionValue)] else [])
    {
      var req := pending[i];
      pending := pending[..i] + pending[i + 1..];
      RunCheckSignal(req);
    }

    /** The window's `close_position_market`, which only asks the exchange
        module to close; the trackers are left alone. */
    method ClosePositionMarket(p: Position)
      modifies `calls
      ensures calls == old(calls) + [CloseCall(p)]
    {
      calls := calls + [CloseCall(p)];
    }

    /** How far the tick over the trackers `m` it started with (verdicts
        `vs`) has got with `todo` still to visit. */
    ghost predicate TickProgress(m: map<string, Tracker>, vs: map<string, Verdict>, todo: set<string>,
                                 closed: set<string>, sent: seq<Call>, start: Monitor, before: seq<Call>)
      reads this
    {
      var opens := OpensOnClose(config, start.active, decisionValue);
      todo <= m.Keys && m.Keys == vs.Keys
      && closed == ClosedKeys(vs, todo)
      && trackers == TickTrackers(m, vs, todo)
      && MonitorState() == (if config.autoOpen && closed != {}
                            then StartMonitor(start, RequestOf(config), decisionValue) else start)
      && calls == before + sent && |sent| == |closed| * (if opens then 2 else 1)
      && forall o :: o in sent <==> SentBy(m, vs, todo, opens, OpenCallOf(RequestOf(config), decisionValue), o)
    }

    /** What the tick does with the verdict `v` on tracker `k`. */
    method ApplyVerdict(k: string, p: Position, v: Verdict)
      modifies `trackers, `calls, `monitoringSignal, `pending
      ensures trackers == if v.Skipped? then old(trackers) else old(trackers)[k := v.tracker]
      ensures var req := RequestOf(config);
        var opens := v.Closed? && config.autoOpen && StartOpens(old(monitoringSignal), decisionValue);
        calls == old(calls) + (if v.Closed? then [CloseCall(p)] + (if opens then [OpenCallOf(req, decisionValue)] else []) else [])
        && MonitorState() == (if v.Closed? && config.autoOpen then StartMonitor(old(MonitorState()), req, decisionValue)
                              else old(MonitorState()))
    {
      if !v.Skipped? {
        trackers := trackers[k := v.tracker];
      }
      if v.Closed? {
        ClosePositionMarket(p);
        if config.autoOpen {
          OpenNewPositionAfterClose();
        }
      }
    }

    /** One visit of the tick: tracker `k`. */
    method VisitTracker(m: map<string, Tracker>, vs: map<string, Verdict>, todo: set<string>, k: string,
                        closed: set<string>, ghost sent: seq<Call>, ghost start: Monitor, ghost before: seq<Call>)
      returns (closed': set<string>, ghost sent': seq<Call>)
      requires k in todo && TickProgress(m, vs, todo, closed, sent, start, before)
      modifies `trackers, `calls, `monitoringSignal, `pending
      ensures TickProgress(m, vs, todo - {k}, closed', sent', start, before)
    {
      var t := m[k];
      var v := vs[k];
      ghost var req := RequestOf(config);
      ghost var opens := OpensOnClose(config, start.active, decisionValue);
      TickStep(m, vs, todo, k);
      OpensStable(start, req, decisionValue, config.autoOpen, closed != {});
      MonitorStep(start, req, decisionValue, config.autoOpen, closed != {}, v.Closed?);
      ApplyVerdict(k, t.position, v);
      closed' := if v.Closed? then closed + {k} else closed;
      ghost var sentNow := if v.Closed? then [CloseCall(t.position)] + (if opens then [OpenCallOf(req, decisionValue)] else []) else [];
      SentStep(m, vs, todo, k, opens, OpenCallOf(req, decisionValue), sent, sentNow);
      AppendAssociative(before, sent, sentNow);
      sent' := sent + sentNow;
    }

    /** The loop of the tick: every tracker visited once, in some order;
        `closed` is the list of trackers to delete. */
    method VisitAll(m: map<string, Tracker>, vs: map<string, Verdict>) returns (closed: set<string>, ghost sent: seq<Call>)
      requires trackers == m && m.Keys == vs.Keys
      modifies `trackers, `calls, `monitoringSignal, `pending
      ensures TickProgress(m, vs, {}, closed, sent, old(MonitorState()), old(calls))
    {
      var todo := m.Keys;
      closed := {};
      sent := [];
      assert ClosedKeys(vs, todo) == {};
      assert trackers == TickTrackers(m, vs, todo);
      while todo != {}
        invariant TickProgress(m, vs, todo, closed, sent, old(MonitorState()), old(calls))
        decreases |todo|
      {
        var k :| k in todo;
        closed, sent := VisitTracker(m, vs, todo, k, closed, sent, old(MonitorState()), old(calls));
        todo := todo - {k};
      }
    }

    /** `check_auto_close_positions`. Each tracker is changed only on its own
        visit, so `m`, the trackers at the start, is what each visit reads. */
    method CheckAutoClosePositions()
      requires Valid()
      modifies `trackers, `calls, `monitoringSignal, `pending
      ensures Valid()
      ensures trackers == AfterTick(config, old(trackers))
      ensures MonitorState() ==
        if config.autoOpen && Closing(config, old(trackers)) != {}
        then StartMonitor(old(MonitorState()), RequestOf(config), decisionValue)
        else old(MonitorState())
      ensures |calls| == |old(calls)| + |Closing(config, old(trackers))|
                           * (if OpensOnClose(config, old(monitoringSignal), decisionValue) then 2 else 1)
      ensures calls[..|old(calls)|] == old(calls)
      ensures forall o :: o in calls[|old(calls)|..] <==>
        (exists k :: k in old(trackers) && Evaluate(config, old(trackers)[k]).Closed? && o == CloseCall(old(trackers)[k].position))
        || (OpensOnClose(config, old(monitoringSignal), decisionValue) && Closing(config, old(trackers)) != {}
            && o == OpenCallOf(RequestOf(config), decisionValue))
    {
      var m := trackers;
      var vs := Verdicts(config, m);
      ghost var opens := OpensOnClose(config, monitoringSignal, decisionValue);
      ghost var open := OpenCallOf(RequestOf(config), decisionValue);
      var toDelete, sent := VisitAll(m, vs);
      TickDoneTrackers(config, m);
      forall o ensures SentBy(m, vs, {}, opens, open, o) <==>
        (exists k :: k in m && Evaluate(config, m[k]).Closed? && o == CloseCall(m[k].position))
        || (opens && Closing(config, m) != {} && o == open)
      {
        TickDoneCalls(config, m, opens, open, o);
      }
      TickFiled(config, m);
      trackers := trackers - toDelete;
      assert calls[|old(calls)|..] == sent;
    }

    /** `check_decision_indicators`: the decision of the older analysis on
        KuCoin candles with the window's settings. */
    method CheckDecisionIndicators(response: Option<seq<Row>>)
      modifies `decisionValue
      ensures decisionValue == Decision(KucoinOldApi.DecideTradeDirection(response, config.rsiPeriod, config.useSma,
                                                                          config.useRsi, config.useVolume))
    {
      decisionValue := Decision(KucoinOldApi.DecideTradeDirection(response, config.rsiPeriod, config.useSma,
                                                                  config.useRsi, config.useVolume));
    }
  }
}
