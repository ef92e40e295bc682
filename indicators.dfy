// The technical analysis behind `decide_trade_direction`: moving averages,
// RSI, volume and the 1-hour high/low over a window of candles, and the two
// rules the bots use to turn the individual signals into one decision.
//
// A candle ("kline") is the exchange's row of numbers; which column holds the
// close differs between exchanges, so the rows stay raw and each decision
// function says which columns it reads. A row too short for a column the
// source indexes makes Python raise, which the source turns into the "Erro"
// answer.
module Indicators {
  import opened Common

  datatype Signal = Buy | Sell | Wait

  type Row = seq<real>

  /** The fewest candles the analysis accepts. */
  const MinCandles: nat := 25

  function Sum(s: seq<real>): real {
    if s == [] then 0.0 else Sum(s[..|s| - 1]) + s[|s| - 1]
  }

  /** `np.mean`. */
  function Mean(s: seq<real>): real
    requires |s| > 0
  {
    Sum(s) / (|s| as real)
  }

  /** Python's `s[-n:]`: the last `n` elements, and all of them when `n` is
      zero or not smaller than the length. */
  function Tail(s: seq<real>, n: nat): seq<real> {
    if n == 0 || n >= |s| then s else s[|s| - n..]
  }

  /** `np.diff`. */
  function Deltas(s: seq<real>): seq<real> {
    if |s| < 2 then [] else seq(|s| - 1, i requires 0 <= i < |s| - 1 => s[i + 1] - s[i])
  }

  /** `up[up < 0] = 0`. */
  function Ups(d: seq<real>): seq<real> {
    seq(|d|, i requires 0 <= i < |d| => if d[i] < 0.0 then 0.0 else d[i])
  }

  /** `down[down > 0] = 0`. */
  function Downs(d: seq<real>): seq<real> {
    seq(|d|, i requires 0 <= i < |d| => if d[i] > 0.0 then 0.0 else d[i])
  }

  function AverageGain(closes: seq<real>, period: nat): real
    requires |closes| >= 2
  {
    Mean(Tail(Ups(Deltas(closes)), period))
  }

  function AverageLoss(closes: seq<real>, period: nat): real
    requires |closes| >= 2
  {
    -Mean(Tail(Downs(Deltas(closes)), period))
  }

  /** The relative strength index over the last `period` price changes. */
  function Rsi(closes: seq<real>, period: nat): real
    requires |closes| >= 2
  {
    GainAndLossNonNegative(closes, period);
    RsiOf(AverageGain(closes, period), AverageLoss(closes, period))
  }

  /** The RSI formula on an average gain and an average loss. */
  function RsiOf(gain: real, loss: real): real
    requires gain >= 0.0 && loss >= 0.0
  {
    if loss == 0.0 then 100.0 else 100.0 - 100.0 / (1.0 + gain / loss)
  }

  lemma RsiOfRange(gain: real, loss: real)
    requires gain >= 0.0 && loss >= 0.0
    ensures 0.0 <= RsiOf(gain, loss) <= 100.0
    ensures RsiOf(gain, loss) == 100.0 <==> loss == 0.0
  {
    if loss != 0.0 {
      var rs := gain / loss;
      assert rs >= 0.0;
      var q := 100.0 / (1.0 + rs);
      assert q * (1.0 + rs) == 100.0;
      assert 0.0 < q <= 100.0;
    }
  }

  lemma {:induction false} SumNonNegative(s: seq<real>)
    requires forall i :: 0 <= i < |s| ==> s[i] >= 0.0
    ensures Sum(s) >= 0.0
  {
    if s != [] { SumNonNegative(s[..|s| - 1]); }
  }

  lemma {:induction false} SumNonPositive(s: seq<real>)
    requires forall i :: 0 <= i < |s| ==> s[i] <= 0.0
    ensures Sum(s) <= 0.0
  {
    if s != [] { SumNonPositive(s[..|s| - 1]); }
  }

  /** The average gain and the average loss are never negative. */
  lemma GainAndLossNonNegative(closes: seq<real>, period: nat)
    requires |closes| >= 2
    ensures AverageGain(closes, period) >= 0.0 && AverageLoss(closes, period) >= 0.0
  {
    var d := Deltas(closes);
    var up := Tail(Ups(d), period);
    var down := Tail(Downs(d), period);
    assert forall i :: 0 <= i < |up| ==> up[i] >= 0.0 by {
      forall i | 0 <= i < |up| ensures up[i] >= 0.0 {
        if !(period == 0 || period >= |Ups(d)|) { assert up[i] == Ups(d)[|Ups(d)| - period + i]; }
      }
    }
    assert forall i :: 0 <= i < |down| ==> down[i] <= 0.0 by {
      forall i | 0 <= i < |down| ensures down[i] <= 0.0 {
        if !(period == 0 || period >= |Downs(d)|) { assert down[i] == Downs(d)[|Downs(d)| - period + i]; }
      }
    }
    SumNonNegative(up);
    SumNonPositive(down);
  }

  /** The RSI lies between 0 and 100, and it is exactly 100 when and only
      when the window holds no loss. */
  lemma RsiRange(closes: seq<real>, period: nat)
    requires |closes| >= 2
    ensures 0.0 <= Rsi(closes, period) <= 100.0
    ensures Rsi(closes, period) == 100.0 <==> AverageLoss(closes, period) == 0.0
  {
    GainAndLossNonNegative(closes, period);
    RsiOfRange(AverageGain(closes, period), AverageLoss(closes, period));
  }

  /** `np.max`. */
  function Max(s: seq<real>): (m: real)
    requires |s| > 0
    ensures m in s && forall i :: 0 <= i < |s| ==> s[i] <= m
  {
    if |s| == 1 then s[0]
    else
      var m := Max(s[..|s| - 1]);
      assert forall i :: 0 <= i < |s| - 1 ==> s[i] == s[..|s| - 1][i];
      if s[|s| - 1] > m then s[|s| - 1] else m
  }

  /** `np.min`. */
  function Min(s: seq<real>): (m: real)
    requires |s| > 0
    ensures m in s && forall i :: 0 <= i < |s| ==> m <= s[i]
  {
    if |s| == 1 then s[0]
    else
      var m := Min(s[..|s| - 1]);
      assert forall i :: 0 <= i < |s| - 1 ==> s[i] == s[..|s| - 1][i];
      if s[|s| - 1] < m then s[|s| - 1] else m
  }

  /** Every row has at least `width` columns. */
  predicate Wide(data: seq<Row>, width: nat) {
    forall i :: 0 <= i < |data| ==> |data[i]| >= width
  }

  /** `[float(kline[k]) for kline in data]`. */
  function Column(data: seq<Row>, k: nat): seq<real>
    requires Wide(data, k + 1)
  {
    seq(|data|, i requires 0 <= i < |data| => data[i][k])
  }

  function SmaSignal(short: real, long: real): Signal {
    if short > long then Buy else if short < long then Sell else Wait
  }

  function RsiSignal(rsi: real): Signal {
    if rsi < 30.0 then Buy else if rsi > 70.0 then Sell else Wait
  }

  /** Buy when the price is strictly nearer the low than the high, else sell. */
  function HighLowSignal(high: real, low: real, price: real): Signal {
    if Abs(price - low) < Abs(high - price) then Buy else Sell
  }

  /** The older volume signal: on high volume, the direction of the last move. */
  function VolumeDirection(current: real, average: real, last: real, previous: real): Signal {
    if current > average then
      (if last > previous then Buy else if last < previous then Sell else Wait)
    else Wait
  }

  predicate AllAre(s: seq<Signal>, x: Signal) {
    forall i :: 0 <= i < |s| ==> s[i] == x
  }

  /** The common direction of a non-empty list of signals that all agree on
      buy or on sell; wait otherwise. */
  function Unanimous(s: seq<Signal>): (d: Signal)
    ensures d != Wait ==> |s| > 0 && AllAre(s, d)
    ensures |s| > 0 && AllAre(s, Buy) ==> d == Buy
    ensures |s| > 0 && AllAre(s, Sell) ==> d == Sell
  {
    if |s| > 0 && s[0] != Wait && AllAre(s, s[0]) then s[0] else Wait
  }

  /** The newer rule: buy when every chosen signal says buy and the volume
      confirms, sell likewise, wait otherwise. */
  function VoteRule(signals: seq<Signal>, confirmed: bool): Signal {
    if |signals| > 0 && AllAre(signals, Buy) && confirmed then Buy
    else if |signals| > 0 && AllAre(signals, Sell) && confirmed then Sell
    else Wait
  }

  /** The newer rule is unanimity gated by the volume confirmation. */
  lemma VoteIsGatedUnanimity(signals: seq<Signal>, confirmed: bool)
    ensures VoteRule(signals, confirmed) == if confirmed then Unanimous(signals) else Wait
  {
    if confirmed && |signals| > 0 && signals[0] != Wait && AllAre(signals, signals[0]) {
      assert AllAre(signals, Buy) || AllAre(signals, Sell);
    }
  }

  /** The older rule as the source writes it: one branch per combination of
      enabled indicators, each asking the enabled signals to agree on a
      direction other than wait. */
  function PairwiseRule(useSma: bool, useRsi: bool, useVolume: bool,
                        sma: Signal, rsi: Signal, volume: Signal): Signal
  {
    if useSma && useRsi && useVolume then
      (if sma == rsi && rsi == volume && sma != Wait then sma else Wait)
    else if useSma && useRsi then
      (if sma == rsi && sma != Wait then sma else Wait)
    else if useSma && useVolume then
      (if sma == volume && sma != Wait then sma else Wait)
    else if useRsi && useVolume then
      (if rsi == volume && rsi != Wait then rsi else Wait)
    else if useSma then (if sma != Wait then sma else Wait)
    else if useRsi then (if rsi != Wait then rsi else Wait)
    else if useVolume then (if volume != Wait then volume else Wait)
    else Wait
  }

  function Enabled(useA: bool, a: Signal, useB: bool, b: Signal, useC: bool, c: Signal): seq<Signal> {
    (if useA then [a] else []) + (if useB then [b] else []) + (if useC then [c] else [])
  }

  /** The seven branches of the older rule are unanimity over the enabled signals. */
  lemma PairwiseIsUnanimity(useSma: bool, useRsi: bool, useVolume: bool,
                            sma: Signal, rsi: Signal, volume: Signal)
    ensures PairwiseRule(useSma, useRsi, useVolume, sma, rsi, volume)
         == Unanimous(Enabled(useSma, sma, useRsi, rsi, useVolume, volume))
  {
    var s := Enabled(useSma, sma, useRsi, rsi, useVolume, volume);
    var d := PairwiseRule(useSma, useRsi, useVolume, sma, rsi, volume);
    assert useSma ==> s[0] == sma;
    assert useRsi ==> s[if useSma then 1 else 0] == rsi;
    assert useVolume ==> s[|s| - 1] == volume;
    if d != Wait {
      assert AllAre(s, d);
    }
  }

  /** What the newer analysis computes from the window. */
  datatype VoteAnalysis = VoteAnalysis(
    smaShort: real, smaLong: real, rsi: real, currentVolume: real, averageVolume: real,
    smaSignal: Signal, rsiSignal: Signal, volumeGo: bool, highLow: Option<Signal>)

  /** What the older analysis computes from the window. */
  datatype PairAnalysis = PairAnalysis(
    smaShort: real, smaLong: real, rsi: real, currentVolume: real, averageVolume: real,
    smaSignal: Signal, rsiSignal: Signal, volumeSignal: Signal)

  /** The answer of `decide_trade_direction`: "N/A" for too few candles,
      "Erro" for a failed request or an unreadable row, or a decision with its
      indicators. */
  datatype Reading<A> = Insufficient | Failed | Computed(decision: Signal, analysis: A)

  function Decision<A>(r: Reading<A>): Signal {
    if r.Computed? then r.decision else Wait
  }

  function Analyse(data: seq<Row>, period: nat, useHighLow: bool): VoteAnalysis
    requires |data| >= MinCandles && Wide(data, 6)
  {
    var closes := Column(data, 4);
    var volumes := Column(data, 5);
    var price := closes[|closes| - 1];
    var short := Mean(Tail(closes, 7));
    var long := Mean(Tail(closes, 25));
    var rsi := Rsi(closes, period);
    var avgVolume := Mean(Tail(volumes, 7));
    var curVolume := volumes[|volumes| - 1];
    var highLow := if useHighLow then Some(HighLowSignal(Max(Column(data, 2)), Min(Column(data, 3)), price)) else None;
    VoteAnalysis(short, long, rsi, curVolume, avgVolume, SmaSignal(short, long), RsiSignal(rsi),
                 curVolume > avgVolume, highLow)
  }

  /** The signals the newer rule votes on: SMA, RSI and high/low, each when enabled. */
  function Chosen(a: VoteAnalysis, useSma: bool, useRsi: bool): seq<Signal> {
    (if useSma then [a.smaSignal] else []) + (if useRsi then [a.rsiSignal] else [])
      + (if a.highLow.Some? then [a.highLow.value] else [])
  }

  /** The newer `decide_trade_direction` (Binance candles: high, low, close
      and volume in columns 2 to 5); `None` is a failed request. */
  function DecideVote(response: Option<seq<Row>>, period: nat,
                      useSma: bool, useRsi: bool, useVolume: bool, useHighLow: bool): Reading<VoteAnalysis>
  {
    match response
    case None => Failed
    case Some(data) =>
      if |data| < MinCandles then Insufficient
      else if !Wide(data, 6) then Failed
      else
        var a := Analyse(data, period, useHighLow);
        Computed(VoteRule(Chosen(a, useSma, useRsi), !useVolume || a.volumeGo), a)
  }

  /** A signal of the newer analysis agrees with `x` when it is disabled or says `x`. */
  predicate VoteAgrees(a: VoteAnalysis, useSma: bool, useRsi: bool, useVolume: bool, x: Signal) {
    (useSma || useRsi || a.highLow.Some?)
    && (useSma ==> a.smaSignal == x) && (useRsi ==> a.rsiSignal == x)
    && (a.highLow.Some? ==> a.highLow.value == x)
    && (useVolume ==> a.volumeGo)
  }

  /** The newer decision is buy (sell) exactly when the window was read, at
      least one signal is enabled, every enabled signal says buy (sell) and,
      with the volume filter on, the last volume beats the 7-candle average. */
  lemma DecideVoteCharacterised(response: Option<seq<Row>>, period: nat,
                                useSma: bool, useRsi: bool, useVolume: bool, useHighLow: bool, x: Signal)
    requires x != Wait
    ensures var r := DecideVote(response, period, useSma, useRsi, useVolume, useHighLow);
      Decision(r) == x <==>
        r.Computed? && r.analysis.highLow.Some? == useHighLow
        && VoteAgrees(r.analysis, useSma, useRsi, useVolume, x)
  {
    var r := DecideVote(response, period, useSma, useRsi, useVolume, useHighLow);
    if r.Computed? {
      VoteRuleAgrees(r.analysis, useSma, useRsi, useVolume, x);
    }
  }

  /** The newer rule on the chosen signals says `x` exactly when they agree on it. */
  lemma VoteRuleAgrees(a: VoteAnalysis, useSma: bool, useRsi: bool, useVolume: bool, x: Signal)
    requires x != Wait
    ensures VoteRule(Chosen(a, useSma, useRsi), !useVolume || a.volumeGo) == x <==> VoteAgrees(a, useSma, useRsi, useVolume, x)
  {
    var s := Chosen(a, useSma, useRsi);
    var hl := a.highLow;
    assert (useSma ==> s[0] == a.smaSignal);
    assert useRsi ==> s[if useSma then 1 else 0] == a.rsiSignal;
    assert hl.Some? ==> s[|s| - 1] == hl.value;
  }

  /** The older `decide_trade_direction`; `closeColumn` is where the exchange
      keeps the close (volume is column 5 on both exchanges that use it). */
  function DecidePairwise(response: Option<seq<Row>>, period: nat,
                          useSma: bool, useRsi: bool, useVolume: bool, closeColumn: nat): Reading<PairAnalysis>
    requires closeColumn < 6
  {
    match response
    case None => Failed
    case Some(data) =>
      if |data| < MinCandles then Insufficient
      else if !Wide(data, 6) then Failed
      else
        var closes := Column(data, closeColumn);
        var volumes := Column(data, 5);
        var short := Mean(Tail(closes, 7));
        var long := Mean(Tail(closes, 25));
        var rsi := Rsi(closes, period);
        var avgVolume := Mean(Tail(volumes, 7));
        var curVolume := volumes[|volumes| - 1];
        var a := PairAnalysis(short, long, rsi, curVolume, avgVolume, SmaSignal(short, long), RsiSignal(rsi),
                              VolumeDirection(curVolume, avgVolume, closes[|closes| - 1], closes[|closes| - 2]));
        Computed(PairwiseRule(useSma, useRsi, useVolume, a.smaSignal, a.rsiSignal, a.volumeSignal), a)
  }

  /** With the volume filter and the high/low signal switched off, the newer
      rule and the older one decide alike on the same Binance candles. */
  lemma RulesAgreeOnSmaAndRsi(response: Option<seq<Row>>, period: nat, useSma: bool, useRsi: bool)
    ensures Decision(DecideVote(response, period, useSma, useRsi, false, false))
         == Decision(DecidePairwise(response, period, useSma, useRsi, false, 4))
  {
    var v := DecideVote(response, period, useSma, useRsi, false, false);
    var p := DecidePairwise(response, period, useSma, useRsi, false, 4);
    if v.Computed? {
      var s := Chosen(v.analysis, useSma, useRsi);
      assert v.analysis.smaSignal == p.analysis.smaSignal && v.analysis.rsiSignal == p.analysis.rsiSignal;
      VoteIsGatedUnanimity(s, true);
      PairwiseIsUnanimity(useSma, useRsi, false, p.analysis.smaSignal, p.analysis.rsiSignal, p.analysis.volumeSignal);
      assert s == Enabled(useSma, p.analysis.smaSignal, useRsi, p.analysis.rsiSignal, false, p.analysis.volumeSignal);
    }
  }
}
