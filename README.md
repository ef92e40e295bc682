# Leverage trading bot — a verified model of its trading core

The leverage trading bot is a desktop program. It watches the positions of one account on three futures and margin exchanges: KuCoin, Bybit and Binance isolated margin. It closes each position with a trailing stop that it keeps as a percentage of the position's margin. When every position is gone, it watches an indicator signal and opens a new position.

This project models four parts of the bot:

- The three windows that run it:
  - `ui.py`, the KuCoin window, whose imports (ui.py:14-21) match the functions of `kucoin/old/api.py`;
  - `bybit/ui.py`;
  - `binance/ui.py`.
- The exchange modules those windows call (`bybit/api.py`, `kucoin/api.py`, `kucoin/old/api.py`, `binance/api.py`).
- The indicator analysis that yields the buy, sell or wait decision.
- Each window's state. It is a Dafny class whose fields the methods update:
  - the tracker map;
  - the monitoring flag;
  - the pending `check_signal` timers;
  - the alert flags;
  - the empty-poll counter;
  - the calls or orders sent to the exchange module.

The newer decision rule, `Indicators.DecideVote`, is the candle-driven part of `decide_trade_direction` in both bybit/api.py:240-365 and kucoin/api.py:215-324, which compute the same thing. The older rule, `Indicators.DecidePairwise`, serves binance/api.py (closes in column 4) and kucoin/old/api.py (closes in column 2), whose decision the `ui.py` window reads.

Every operation is proved against a specification function of the old state. The lemmas next to those functions state what the bot promises:

- the trigger ratchets up in profit;
- a close happens exactly when the profit falls to the trigger;
- the trackers are keyed by exactly the polled positions;
- polling twice is polling once;
- an alert fires once per visit of its zone;
- the monitor cannot be started twice;
- the candle decision is unanimity over the enabled signals.

Modules:

| module | file | what it holds |
|---|---|---|
| `Common` | common.dfy | `Option`, orders and their signed size, the open details of KuCoin and Bybit |
| `Text` | text.dfy | `strip`, `split`, `join`, `replace`, the `M$` substitution, the ignore-list parser |
| `Indicators` | indicators.dfy | SMA, RSI, volume and high/low signals; the newer vote rule and the older pairwise rule |
| `Risk` | risk.dfy | the trigger ratchet, the profit water mark, the reconciliation of a tracker map with a poll |
| `Control` | control.dfy | the edge-triggered price alerts and the empty-poll debounce |
| `BybitApi`, `KucoinApi`, `KucoinOldApi`, `BinanceApi` | *_api.dfy | position records, close and open orders, high/low, the contract picker, LOT_SIZE and loan sizing |
| `RootUi`, `BybitUi`, `BinanceUi` | root_ui.dfy, bybit_ui.dfy, binance_ui.dfy | one window class each, with its tick, poll, monitor and settings |

The program's `int`, `float` and `dict` become `int`, `real` and `map`. A value that may be missing (`None`, or a `.get` with no default) becomes `Option`. A request that may fail becomes a parameter that holds the reply, or `None` for a failure.

The Binance tick iterates a copy of the tracker map. The source iterates the live dictionary while the close wrapper deletes from it, which would raise in Python (see "Left out"). The `ui.py` tick deletes nothing during its loop, so its iteration over the live values is the iteration over the map it started with.

## Model

| member | source | states |
|---|---|---|
| Text.Strip | bybit/ui.py:606 | `str.strip()`: `rstrip` after `lstrip`; its properties are stated by `Text.StripIsTrimmedSlice` |
| Text.TrimLeftFacts | bybit/ui.py:606-611 | `lstrip` keeps a suffix that does not start with white space, and everything it drops is white space |
| Text.TrimRightFacts | bybit/ui.py:606-611 | `rstrip` keeps a prefix that does not end with white space, and everything it drops is white space |
| Text.StripIsTrimmedSlice | bybit/ui.py:606-611 | `strip` returns a slice of its input that neither starts nor ends with white space, and only white space is cut |
| Text.Split | bybit/ui.py:608 | `split` on one character gives at least one piece, and no piece holds the separator |
| Text.JoinSplit | bybit/ui.py:608 | joining the split pieces with the separator gives the text back |
| Text.StrippedNonEmpty | bybit/ui.py:608 | the comprehension keeps exactly the non-empty stripped pieces, and no more entries than there were pieces |
| Text.ParseList | bybit/ui.py:606-611 | the ignore-list comprehension: split on commas, strip each piece and keep the non-empty ones; its properties are stated by `Text.ParseListEntries` |
| Text.ParseListEntries | bybit/ui.py:606-611 | every parsed ignore entry is the non-empty stripped text of a comma-separated piece, holds no comma and has no surrounding white space; every such piece appears |
| Text.ReplaceFacts | bybit/api.py:102 | a replacement of equal length keeps the length, and with no occurrence the text is unchanged |
| Text.DropTrailingM | bybit/api.py:102 | `re.sub(r"M$", "")` removes one `M` exactly when it ends the text or comes just before a final newline, and nothing otherwise |
| Indicators.Rsi | kucoin/api.py:238-250 | the RSI of the last `period` changes of the close; its range is stated by `Indicators.RsiRange` |
| Indicators.RsiOfRange | kucoin/api.py:246-250 | for a non-negative gain and loss the RSI formula lies in [0, 100], and it is 100 exactly when the loss is 0 |
| Indicators.GainAndLossNonNegative | kucoin/api.py:238-245 | the average gain and the negated average loss over the last `period` changes are never negative |
| Indicators.RsiRange | kucoin/api.py:238-250 | the RSI of a close series lies in [0, 100], and it is 100 exactly when the average loss is 0 |
| Indicators.Max | kucoin/api.py:271 | `np.max` is an element of the series that no element exceeds |
| Indicators.Min | kucoin/api.py:272 | `np.min` is an element of the series that no element undercuts |
| Indicators.Unanimous | kucoin/api.py:284-297 | the common direction is buy or sell only when the list is non-empty and every signal says it, and it is that direction whenever they all agree |
| Indicators.DecideVote | kucoin/api.py:215-324 | the newer decision with its SMA, RSI, volume and high/low readings; characterised by `Indicators.DecideVoteCharacterised` and `Indicators.VoteIsGatedUnanimity` |
| Indicators.DecidePairwise | kucoin/old/api.py:244-375 | the older decision with its seven branches over the enabled indicators; `Indicators.PairwiseIsUnanimity` states it is unanimity |
| Indicators.VoteIsGatedUnanimity | kucoin/api.py:263-297 | the newer rule is unanimity over the chosen signals when the volume confirms, and wait otherwise |
| Indicators.PairwiseIsUnanimity | kucoin/old/api.py:322-350 | the seven branches of the older rule, one per combination of enabled indicators, are unanimity over the enabled signals |
| Indicators.DecideVoteCharacterised | kucoin/api.py:215-297 | the newer decision is buy (sell) exactly when at least 25 candles were read, at least one signal is chosen, every chosen signal says buy (sell) and the volume confirms when required |
| Indicators.VoteRuleAgrees | kucoin/api.py:284-297 | the vote over the chosen signals gives `x` exactly when every enabled signal agrees on `x` and the volume gate passes |
| Indicators.RulesAgreeOnSmaAndRsi | binance/api.py:510-596 | with the volume filter and the high/low signal off, the newer and the older rule take the same decision over the same candles |
| Risk.Ratchet | binance/ui.py:612-613 | the new trigger: the calculated level when higher, or when lower at a loss; stated by `Risk.RatchetFacts` |
| Risk.RatchetFacts | binance/ui.py:612-613 | in profit the trigger becomes the larger of the current and the calculated level and never moves down; at a loss it follows the calculated level |
| Risk.RatchetOptional | binance/ui.py:612-613 | a missing trigger becomes the calculated level; in profit an existing one never moves down and is either kept or replaced by the calculated level |
| Risk.WaterMark | binance/ui.py:616-619 | the new profit high: a higher profit, or a loss below the mark; stated by `Risk.WaterMarkFacts` |
| Risk.WaterMarkFacts | binance/ui.py:616-619 | in profit the water mark is the running maximum of the profit; at a loss it is the loss |
| Risk.Upsert | binance/ui.py:566-578 | the loop over the poll: a new key gets a fresh tracker, a known one is refreshed; stated by `Risk.UpsertKeys`, `Risk.UpsertUntouched` and `Risk.UpsertValue` |
| Risk.Reconcile | binance/ui.py:566-584 | the loop followed by the removal of stale trackers; stated by `Risk.ReconcileKeys`, `Risk.ReconcileValue` and `Risk.ReconcileIdempotent` |
| Risk.UpsertSnoc | binance/ui.py:566-578 | one more polled position is one more insert or refresh, and it adds its key |
| Risk.UpsertKeys | binance/ui.py:566-578 | after the loop over the poll the keys are the old keys plus the polled ones |
| Risk.UpsertUntouched | binance/ui.py:566-578 | a key the poll does not name keeps its tracker through the loop |
| Risk.UpsertValue | binance/ui.py:566-578 | with one position per key, a polled key holds the refresh of its old tracker, or a fresh tracker if it was new |
| Risk.ReconcileKeys | binance/ui.py:566-584 | after the poll and the removal of stale trackers the keys are exactly the polled keys |
| Risk.ReconcileValue | binance/ui.py:566-584 | with one position per key, each polled key ends with its refreshed old tracker, or a fresh one |
| Risk.ReconcileIdempotent | binance/ui.py:566-584 | reconciling twice with the same poll gives the trackers of reconciling once |
| Control.InAlertZone | binance/ui.py:762-780 | the price is at or past a positive threshold on the zone's side; `Control.Alert` sets its flag exactly inside the zone |
| Control.Alert | binance/ui.py:762-780 | an alert fires only on entering its zone (it was not triggered and is now); the flag is set exactly while the price is in a zone whose threshold is positive |
| Control.AlertFiresOncePerVisit | binance/ui.py:762-780 | over a run of prices inside the zone the alert fires exactly once if it was not triggered (never otherwise) and stays triggered |
| Control.AlertRearms | binance/ui.py:762-780 | one price outside the zone re-arms the alert, so the next price inside fires it again |
| Control.Debounce | binance/ui.py:447-459 | a non-empty poll resets the counter and the monitoring flag; an empty one counts up; a failed one changes nothing; the monitor starts exactly on the fourth and later empty polls in a row while auto-open is on and no monitor is active |
| Control.CountIsEmptyStreak | bybit/ui.py:657-661 | the counter holds the number of empty polls since the last non-empty one, or since the start plus the initial count when there was none; failed polls do not count |
| BybitApi.Normalize | bybit/api.py:49-83 | the adapted record carries every field of the Bybit position: margins from `positionIM`, doubled realised profit, and a quantity whose size is `size` and whose sign says buy |
| BybitApi.FetchOpenPositions | bybit/api.py:29-88 | `None` exactly when the reply has no list; otherwise one adapted record per entry, in order |
| BybitApi.BybitSymbolFacts | bybit/api.py:102 | the Bybit symbol keeps the length up to one dropped `M`, leaves a symbol without `XBT` or a final `M` unchanged, and maps `XBTUSDTM` to `BTCUSDT` |
| BybitApi.CloseOrder | bybit/api.py:143-178 | no order for a zero quantity; otherwise a reduce-only market order on the Bybit symbol, buying back a short and selling a long, of the absolute size |
| BybitApi.CloseOrderFlattens | bybit/api.py:151-176 | the close order brings the signed position size to zero |
| BybitApi.OpenOrder | bybit/api.py:197-220 | a market order that is not reduce-only, on the Bybit symbol, of the given size, buying exactly when the side is `buy` in any case |
| BybitApi.OpenResult | bybit/api.py:221-233 | details are returned exactly when the reply carries an order id, with the window's symbol and the upper-cased side |
| BybitApi.FetchHighLowPrices | bybit/api.py:115-135 | `None` when there are no rows of at least four columns; otherwise the largest high and the smallest low of those rows, each taken from one of them |
| KucoinApi.CloseOrder | kucoin/api.py:85-95 | no order for a zero quantity; otherwise a reduce-only market order, buying back a short and selling a long, of the absolute size |
| KucoinApi.CloseOrderFlattens | kucoin/api.py:85-95 | the close order brings the signed size to zero and so strictly shrinks the position |
| KucoinApi.OpenResult | kucoin/api.py:196-209 | details are returned exactly on HTTP 200 or 201, with the upper-cased side |
| KucoinApi.FetchHighLowPrices | kucoin/api.py:61-80 | a result exactly for a non-empty reply whose rows have five columns; it is the largest of column 3 and the smallest of column 4, both attained |
| KucoinOldApi.UsdtOnly | kucoin/old/api.py:29 | the filter keeps exactly the USDT contracts, each as often as it was fetched |
| KucoinOldApi.Insert | kucoin/old/api.py:32 | inserting into a list sorted by decreasing mark price keeps it sorted and adds exactly the one contract |
| KucoinOldApi.SortByMarkPrice | kucoin/old/api.py:32 | the sort is by decreasing mark price and is a permutation of its input |
| KucoinOldApi.SortByMarkPriceStable | kucoin/old/api.py:32 | the sort is stable: the contracts of any one mark price come out in the order they were fetched, as Python's `sort(reverse=True)` keeps them |
| KucoinOldApi.ListUsdtContracts | kucoin/old/api.py:19-51 | filter to USDT, sort by decreasing mark price, keep the first fifteen; stated by the three lemmas below |
| KucoinOldApi.ListUsdtContractsShape | kucoin/old/api.py:19-51 | the picker lists at most fifteen contracts, all USDT, by decreasing mark price, and nothing for a failed request |
| KucoinOldApi.ListUsdtContractsFromReply | kucoin/old/api.py:29-35 | every listed contract was fetched, at most as often as it was fetched |
| KucoinOldApi.ListUsdtContractsTop | kucoin/old/api.py:32-35 | no USDT contract left off the list has a higher mark price than the last one listed |
| KucoinOldApi.DecideTradeDirectionUnanimous | kucoin/old/api.py:244-375 | too few candles give "N/A"; otherwise the decision is the common direction of the enabled SMA, RSI and volume signals |
| KucoinOldApi.CloseOrder | kucoin/old/api.py:122-148 | no order for a zero quantity; otherwise a reduce-only market order on the position's symbol that buys back a short and sells a long, of the absolute size |
| BinanceApi.Pnl | binance/api.py:121-127 | the profit is zero without an entry price or a current price |
| BinanceApi.PnlSign | binance/api.py:121-125 | a long gains exactly when the price is above the entry and a short exactly when it is below; the loss cases are mirrored |
| BinanceApi.PnlPercentage | binance/api.py:139-143 | the percentage is zero on a zero margin |
| BinanceApi.PnlPercentageSign | binance/api.py:139-141 | over a positive margin the percentage has the sign of the profit |
| BinanceApi.FetchOpenPositions | binance/api.py:74-176 | a failed request gives no positions; otherwise the positions are those of the account, dust left out, in account order |
| BinanceApi.Positions | binance/api.py:95-167 | the account's positions in order, dust left out; `BinanceApi.FetchOpenPositions` is proved to compute it and `BinanceApi.PositionsFacts` states its properties |
| BinanceApi.PositionsFacts | binance/api.py:95-167 | every reported position has a size of at least 1e-5, is long exactly when its size is positive and has a non-negative borrowed amount; every non-dust asset is reported, and nothing else is |
| BinanceApi.AdjustQuantity | binance/api.py:486-508 | below the minimum the minimum; above the maximum the maximum; in between a result exactly when the step is positive |
| BinanceApi.FloorTimesStep | binance/api.py:500 | flooring to a whole number of steps loses less than one step and never rounds up |
| BinanceApi.AdjustQuantityRoundsDown | binance/api.py:498-501 | inside the bounds the quantity is rounded down to a whole number of steps and loses less than one step |
| BinanceApi.AdjustQuantityWithinBounds | binance/api.py:486-508 | when the minimum is a whole number of steps, the adjusted quantity always exists and lies within the bounds |
| BinanceApi.EntryPrice | binance/api.py:441-448 | the fill-weighted price, or the quote spent over the quantity executed without fills; `BinanceApi.EntryPriceBetweenFills` bounds it |
| BinanceApi.CostBounds | binance/api.py:441-445 | over fills of positive quantity priced in [lo, hi], the total cost lies between lo and hi times the total quantity, and the quantity is positive |
| BinanceApi.EntryPriceBetweenFills | binance/api.py:441-448 | the weighted entry price of a filled order exists and lies between the cheapest and the dearest fill |
| BinanceApi.PlanBorrow | binance/api.py:368-405 | no loan when the allowance is unknown or zero; the loan is the desired amount capped at the allowance, in quote for a buy and base otherwise; the quantity changes only for a sale that hits the cap |
| BinanceApi.OpenNewPositionMarket | binance/api.py:343-466 | a position is opened exactly when there are a price, a LOT_SIZE filter, an adjusted quantity, a loan plan, a granted loan when it is positive, an order reply and an entry price; it carries the symbol, the upper-cased side, the amount, the leverage, the fill-based entry price and the planned quantity |
| BinanceApi.OpenedPositionFacts | binance/api.py:395-448 | the opened position is priced between its cheapest and dearest fill and, unless a capped sale shrank it, its quantity is the requested one rounded down to whole steps, less than one step short |
| BinanceApi.DecideTradeDirectionFacts | binance/api.py:510-620 | too few candles give "N/A"; on high volume the volume signal follows the last move of the close and is wait otherwise; the decision is the common direction of the enabled signals |
| BybitUi.ManualStopBands | bybit/ui.py:866-884 | the manual band table band by band, including the ranges it leaves to the default: below 0.5%, [0.5, 3], (3, 4), (15.9, 16) and (30, 31) |
| BybitUi.LossGivesDefaultStop | bybit/ui.py:866-887 | at a loss both the manual and the automatic mode give the default level |
| BybitUi.StopTrailsProfit | bybit/ui.py:866-887 | with a sub-0.5 default and positive trailing distances, the level computed from a profit of 0.5% or more lies below that profit |
| BybitUi.StopPriceHitSide | bybit/ui.py:899-939 | an absolute stop hit above the entry of a long, or below the entry of a short, happens only in profit; one on the other side happens only at a loss |
| BybitUi.IsIgnored | bybit/ui.py:941-950 | the loop reports a symbol as ignored exactly when a non-empty coin of the list is a prefix of it |
| BybitUi.IgnoredParsed | bybit/ui.py:606-611 | for a parsed list the emptiness test is moot: a symbol is ignored exactly when a typed coin is a prefix of it |
| BybitUi.TickPnl | bybit/ui.py:845-856 | the tick's profit percentage net of fees, `None` on a zero margin (a missing margin counts as 1); used by `BybitUi.EvaluateFacts` |
| BybitUi.Evaluate | bybit/ui.py:845-978 | the tick's decision for one tracker; characterised by `BybitUi.EvaluateFacts` |
| BybitUi.AfterTick | bybit/ui.py:838-988 | the tracker map after a tick; `BybitUi.TickDoneTrackers` and `BybitUi.Window.CheckAutoClosePositions` connect it to the loop |
| BybitUi.EvaluateFacts | bybit/ui.py:845-978 | a zero margin is skipped; in profit the trigger and the water mark never move down, at a loss they reset; a position closes exactly when auto-close is on and either the stop price is hit, or the profit fell to the trigger and the side's ignore list does not cover it; only the percentage stop asks for a new entry |
| BybitUi.TickStep | bybit/ui.py:838-988 | visiting one tracker stores its update, drops it when its close is sent, and adds its close order and its request for a new entry |
| BybitUi.TickFiled | bybit/ui.py:838-988 | the tick keeps every tracker filed under its own symbol |
| BybitUi.MonitorStep | bybit/ui.py:953-978 | after a visit the monitor has been started exactly when some visited percentage stop fired, and at most once |
| BybitUi.WrapperSends | bybit/ui.py:1128-1157 | the close wrapper sends unless the side's ignore list covers the symbol on the fee-adjusted profit; used by `BybitUi.Window.ClosePositionMarket` |
| BybitUi.SentStep | bybit/ui.py:1105-1183 | after a visit the orders sent are exactly the close orders of the visited trackers whose close was sent |
| BybitUi.TickDoneTrackers | bybit/ui.py:980-988 | once every tracker is visited, dropping the closed ones gives the trackers after the tick |
| BybitUi.TickDoneReopen | bybit/ui.py:953-978 | once every tracker is visited, a new entry was asked for exactly when some percentage stop fired |
| BybitUi.TickDoneOrders | bybit/ui.py:1105-1183 | once every tracker is visited, the orders sent are exactly the close orders of the trackers whose close the wrapper let through |
| BybitUi.CheckSignalStep | bybit/ui.py:1003-1071 | an inactive monitor does nothing; a signal against the chosen direction stops it; otherwise it stays active and sets up exactly one more timer |
| BybitUi.StartMonitorIdempotent | bybit/ui.py:998-1001 | a second start right after the first changes nothing, and neither does a start while the monitor is active |
| BybitUi.NewTracker | bybit/ui.py:818-823 | the tracker of a newly polled symbol: the water mark is the profit when it is at least 10%, the trigger the default, no margin calls used; stated by `BybitUi.ReconciledFacts` |
| BybitUi.ReconciledFacts | bybit/ui.py:816-836 | after a poll the trackers are keyed by exactly the polled symbols; a known symbol keeps its trigger, water mark and margin calls and takes the new position; a new one starts at the default trigger, with a water mark of its profit from 10% on (else 0); polling the same list again changes nothing |
| BybitUi.Window.constructor | bybit/ui.py:27-76 | the window starts with no trackers, an idle monitor, no orders, disarmed alerts and the default settings |
| BybitUi.Window.CheckParametersChanges | bybit/ui.py:586-649 | with readable fields exactly the settings read at bybit/ui.py:591-602 take their new values, both ignore lists are parsed and both alerts re-arm; auto-close, auto-open, the symbol, the direction and the indicator choices stay as they were; with an unreadable field nothing changes |
| BybitUi.Window.UpdatePositionsDisplay | bybit/ui.py:816-836 | the trackers become the reconciliation of the old ones with the poll, and every tracker stays filed under its symbol |
| BybitUi.Window.FetchOpenPositions | bybit/ui.py:651-675 | a failed poll leaves the trackers; otherwise they are reconciled; the counter and the monitoring flag follow the debounce, and the monitor starts exactly when the debounce says so |
| BybitUi.Window.OpenNewPositionAfterClose | bybit/ui.py:990-996 | the monitor starts with the selected symbol, the default size and the default leverage |
| BybitUi.Window.RunCheckSignal | bybit/ui.py:1003-1071 | the monitor takes one `check_signal` step on the current decision, direction and price |
| BybitUi.Window.FireTimer | bybit/ui.py:1018-1071 | a look-again timer takes one more step; a confirmation timer opens exactly when the monitor is active and the price moved past the stored one in the signal's direction, seeds the tracker when the exchange returned details, and stops the monitor either way |
| BybitUi.Window.CheckDecisionIndicators | bybit/ui.py:1075-1089 | the decision becomes that of the newer analysis with the window's indicator settings |
| BybitUi.Window.UpdatePriceLabel | bybit/ui.py:1185-1227 | the last price is the new price, and each alert fires and re-arms as the edge-triggered alert rule says |
| BybitUi.Window.ClosePositionMarket | bybit/ui.py:1105-1183 | unless the side's ignore list covers the symbol on the fee-adjusted profit, its close order is sent and its tracker dropped; otherwise nothing changes |
| BybitUi.Window.ApplyVerdict | bybit/ui.py:889-978 | the verdict's tracker is stored, the close is sent and the tracker dropped when the wrapper lets it through, and the monitor starts when the percentage stop fired with auto-open on |
| BybitUi.Window.VisitTracker | bybit/ui.py:838-978 | one visit keeps the tick's progress invariant with one tracker fewer to visit |
| BybitUi.Window.VisitAll | bybit/ui.py:838-978 | the loop visits every tracker of the copy once, in any order, and keeps the progress invariant |
| BybitUi.Window.CheckAutoClosePositions | bybit/ui.py:838-988 | the trackers become those after the tick; the monitor starts exactly when some percentage stop fired with auto-open on; the old orders are kept, at most one is added per tracker, and the new ones are exactly the close orders the wrapper let through |
| BinanceUi.BandStop | binance/ui.py:600-609 | the band table's level; stated band by band by `BinanceUi.BandStopBands` |
| BinanceUi.BandStopBands | binance/ui.py:600-609 | the band table band by band, including the ranges it leaves to the default: below 0.5%, (15.9, 16) and (30, 31) |
| BinanceUi.BandStopTrailsProfit | binance/ui.py:600-609 | with a negative default and positive trailing distances, a level from a profit of 0.5% or more lies below that profit |
| BinanceUi.Evaluate | binance/ui.py:586-651 | the tick's decision for one tracker; characterised by `BinanceUi.EvaluateFacts` |
| BinanceUi.EvaluateFacts | binance/ui.py:586-651 | the tick always leaves a trigger, setting a missing one to the table's level; in profit an existing trigger never moves down and the mark is the running maximum; at a loss both reset; a position closes exactly when its profit is at or below the new trigger |
| BinanceUi.StartMonitorIdempotent | binance/ui.py:667-698 | a second start after the first changes nothing, a start while active changes nothing, and a start on wait raises the flag and sets up one more look |
| BinanceUi.AfterTick | binance/ui.py:586-655 | the tracker map after a tick, seeded tracker included; stated by `BinanceUi.AfterTickFacts` |
| BinanceUi.AfterTickFacts | binance/ui.py:586-655 | after a tick a closed position has no tracker and a kept one has its updated tracker; when a close opened a position, the selected symbol, unless it closed, holds the seeded tracker |
| BinanceUi.BaseStep | binance/ui.py:586-655 | visiting one tracker updates it, or drops it when it closes |
| BinanceUi.LiveStep | binance/ui.py:622-651 | one visit takes the tracker map one step further, an open's seeded tracker shadowing later updates of the selected symbol |
| BinanceUi.SentStep | binance/ui.py:622-651 | after a visit the calls are the close of each closed visited tracker, each followed by an open when closes open positions |
| BinanceUi.TickDoneCalls | binance/ui.py:622-651 | once every tracker is visited, the calls are exactly the closes of the closing trackers and, when closes open, the open |
| BinanceUi.OpensStable | binance/ui.py:657-698 | once a close has started the monitor during a tick, later closes find it in the same state |
| BinanceUi.MonitorStep | binance/ui.py:645-651 | after a visit the monitor is started exactly when some visited tracker closed with auto-open on |
| BinanceUi.OutcomeSymbol | binance/api.py:452-462 | an opened position is recorded under the symbol it was opened for |
| BinanceUi.TickFiled | binance/ui.py:586-655 | the tick keeps every tracker filed under its own symbol |
| BinanceUi.ReconciledFacts | binance/ui.py:566-584 | after a poll the trackers are keyed by exactly the polled symbols; a known symbol keeps its trigger and water mark and takes the new position; a new one starts at the default trigger and a water mark of 0; polling again changes nothing |
| BinanceUi.Window.constructor | binance/ui.py:24-60 | the window starts with no trackers, an idle monitor, no calls, disarmed alerts and the default settings |
| BinanceUi.Window.CheckParametersChanges | binance/ui.py:404-442 | with readable fields the numeric settings change and both alerts re-arm; with an unreadable field nothing changes |
| BinanceUi.Window.UpdatePositionsDisplay | binance/ui.py:566-584 | the trackers become the reconciliation of the old ones with the poll, and stay filed under their symbols |
| BinanceUi.Window.FetchOpenPositions | binance/ui.py:444-468 | the positions derived with what the trackers remember are reconciled; the debounce sets the counter and the flag; a started monitor opens at once on a buy or sell and seeds the selected symbol's tracker when the open succeeds |
| BinanceUi.Window.OpenNewPositionAfterClose | binance/ui.py:657-665 | the monitor starts with the selected symbol, the default amount and leverage; an idle monitor on a buy or sell makes one open call and seeds a tracker exactly when it succeeds |
| BinanceUi.Window.RunCheckSignal | binance/ui.py:672-695 | a buy or sell makes one open call, clears the flag and seeds a tracker exactly when the open succeeds; wait sets up another look |
| BinanceUi.Window.FireTimer | binance/ui.py:693-695 | a timer fires: it is removed and runs one `check_signal` |
| BinanceUi.Window.CheckDecisionIndicators | binance/ui.py:700-709 | the decision becomes that of the older analysis on Binance candles with the window's settings |
| BinanceUi.Window.UpdatePriceLabel | binance/ui.py:743-787 | the last price is the new price, and each alert fires and re-arms as the edge-triggered rule says |
| BinanceUi.Window.ClosePositionMarket | binance/ui.py:727-741 | exactly one close call is made and the tracker under the symbol is dropped |
| BinanceUi.Window.ApplyVerdict | binance/ui.py:612-651 | the updated tracker is stored unless an open has replaced it; a close makes its call, drops the tracker and starts the monitor with auto-open on |
| BinanceUi.Window.VisitTracker | binance/ui.py:586-651 | one visit keeps the tick's progress invariant with one tracker fewer to visit |
| BinanceUi.Window.VisitAll | binance/ui.py:586-651 | the loop visits every tracker of the copy once, in any order, and keeps the progress invariant |
| BinanceUi.Window.CheckAutoClosePositions | binance/ui.py:586-655 | the trackers become those after the tick; the monitor starts exactly when something closed with auto-open on; the calls grow by one close per closing tracker, plus one open each when closes open, and the new calls are exactly those |
| RootUi.TickPnlIsDisplayPnl | ui.py:506-511 | where a margin is present, the tick and the table show the same profit; they differ only on a missing margin, which the tick takes as 1 and the table as 0 |
| RootUi.CalculatedStop | ui.py:655-666 | the level is the if/elif chain's; the first `if` on [4.5, 6.9] is always overwritten, so that range gets the default |
| RootUi.BandStop | ui.py:655-666 | the if/elif chain's level; `RootUi.CalculatedStop` ties it to the chain as written and `RootUi.BandStopBands` states it band by band |
| RootUi.BandStopBands | ui.py:655-666 | the band table band by band: below 7% (so [4.5, 6.9] too), (9, 10) and (30, 31) give the default |
| RootUi.Evaluate | ui.py:643-711 | the tick's decision for one tracker; characterised by `RootUi.EvaluateFacts` |
| RootUi.AfterTick | ui.py:637-716 | the tracker map after a tick; `RootUi.TickDoneTrackers` and `RootUi.Window.CheckAutoClosePositions` connect it to the loop |
| RootUi.EvaluateFacts | ui.py:643-711 | a zero margin is skipped; in profit the trigger and the mark never move down; at a loss both reset; a position closes exactly when its profit is at or below the trigger |
| RootUi.StartMonitorIdempotent | ui.py:728-747 | a second start right after the first changes nothing, and neither does a start while active |
| RootUi.OpensStable | ui.py:718-747 | once a close has started the monitor during a tick, later closes find it in the same state |
| RootUi.MonitorStep | ui.py:683-711 | after a visit the monitor has been started exactly when some visited tracker closed with auto-open on |
| RootUi.TickStep | ui.py:637-711 | visiting one tracker stores its update and, when it closes, adds it to the keys to delete |
| RootUi.SentStep | ui.py:683-711 | after a visit the calls are the close of each closed visited tracker, each followed by an open when closes open positions |
| RootUi.TickDoneTrackers | ui.py:713-716 | once every tracker is visited, deleting the closed ones gives the trackers after the tick |
| RootUi.TickDoneCalls | ui.py:683-711 | once every tracker is visited, the calls are exactly the closes of the closing trackers and, when closes open, the open |
| RootUi.TickFiled | ui.py:637-716 | the tick keeps every tracker filed under its position id |
| RootUi.ReconciledFacts | ui.py:617-635 | after a poll the trackers are keyed by exactly the polled ids; a known id keeps its trigger and mark and takes the new position; a new one starts at the default trigger and a mark of its profit from 10% on (else 0); polling again changes nothing |
| RootUi.Window.constructor | ui.py:25-64 | the window starts with no trackers, an idle monitor, no calls and the default settings |
| RootUi.Window.ToggleAutoOpen | ui.py:401-415 | a checkbox sets its own indicator flag; the auto-open checkbox and the indicator checkboxes never change the auto-open flag, which only a call without a checkbox sets |
| RootUi.Window.UpdatePositionsDisplay | ui.py:617-635 | the trackers become the reconciliation of the old ones with the poll, and stay filed under their ids |
| RootUi.Window.FetchOpenPositions | ui.py:472-476 | the trackers are reconciled; an empty poll with auto-open on and no active monitor starts the monitor at once, which opens on a buy or sell |
| RootUi.Window.OpenNewPositionAfterClose | ui.py:718-726 | the monitor starts with the selected symbol, the default quantity and leverage, and an idle monitor on a buy or sell makes exactly one open call |
| RootUi.Window.RunCheckSignal | ui.py:735-744 | a buy or sell makes one open call and clears the flag; wait sets up another look; no tracker is seeded |
| RootUi.Window.FireTimer | ui.py:742-744 | a timer fires: it is removed and runs one `check_signal` |
| RootUi.Window.CheckDecisionIndicators | ui.py:749-751 | the decision becomes that of the older analysis on KuCoin candles (closes in column 2) with the window's period and indicator choices; `KucoinOldApi.DecideTradeDirectionUnanimous` states what it is |
| RootUi.Window.ClosePositionMarket | ui.py:773-774 | exactly one close call is made; the trackers are left alone |
| RootUi.Window.ApplyVerdict | ui.py:669-711 | the verdict's tracker is stored; a close makes its call, is marked for deletion and starts the monitor with auto-open on |
| RootUi.Window.VisitTracker | ui.py:637-711 | one visit keeps the tick's progress invariant with one tracker fewer to visit |
| RootUi.Window.VisitAll | ui.py:637-711 | the loop visits every tracker once, in any order, and keeps the progress invariant |
| RootUi.Window.CheckAutoClosePositions | ui.py:637-716 | the trackers become those after the tick; the monitor starts exactly when something closed with auto-open on; the calls grow by one close per closing tracker plus one open each when closes open, and the new calls are exactly those |

## Left out

- Network, HTTP, request signing, websockets, sounds, e-mail and the Qt widgets are not part of this model. A request becomes a parameter that holds its reply, or `None` for a failure.
- Timers are not modelled as time. A pending `check_signal` is a queued callback, and `FireTimer` fires any one of them.
- Saving and loading settings and trackers as JSON are not part of this model. The constructors start from the default settings with no trackers.
- Floating point becomes exact `real` arithmetic. This affects `round(quantity, precision)` and the formatting that `rstrip('0')` strips in `adjust_quantity` and the loan amounts.
- The `int()` and `float()` parsing of the settings fields is not modelled either: `CheckParametersChanges` takes the parsed values, or `None` for a field that raises `ValueError`, on which nothing changes.
- Indicators.Rsi, Indicators.DecideVote, Indicators.DecidePairwise, BybitUi.Window.CheckParametersChanges, BinanceUi.Window.CheckParametersChanges: the RSI period is a natural number. A negative period is not modelled, although `int()` accepts one in the settings field. With period -k the source averages `up[k:]` instead of the last changes, and an empty slice makes the mean NaN. Both analyses then raise on `int(rsi)` and answer wait with their error readings.
- The exception branches of the windows' `fetch_open_positions`, which clear the monitoring flag, are not part of this model.
- The Binance close sequence of `close_position_market` in binance/api.py (selling or buying back the asset and repaying the loan with its interest) is not part of this model: it is a series of signed requests whose answers interleave. The window's close is one recorded call.
- `BinanceUi.Window.CheckAutoClosePositions` iterates a copy of the trackers. The source iterates the live dictionary while `close_position_market` deletes from it, which makes Python raise `RuntimeError` once a position closes. The model gives the behaviour of a tick that does not fail.
- `BinanceUi.Window.CheckAutoClosePositions` gives every open of one tick the same exchange answers `mk`.
- The iteration order of the trackers is left open: the loop picks any unvisited key.
- `api.py` at the repository root is not part of this model. It lacks `decide_trade_direction` and `list_usdt_contracts`, which `ui.py` imports, and its `fetch_high_low_prices` takes no symbol. The functions `ui.py` calls are those of `kucoin/old/api.py`. The window's close and open calls are recorded as calls. What that module then sends for a close is `KucoinOldApi.CloseOrder`.
- RootUi.Window.FetchOpenPositions: a failed poll is not modelled. `fetch_open_positions` of `kucoin/old/api.py` raises on a failed request (kucoin/old/api.py:89-95), and the exception leaves the timer slot at ui.py:473. The model takes only a successful poll.
- The `check_parameters_changes` and `update_price_label` of `ui.py` are not part of this model.
- The margin-call limit that `check_parameters_changes` of `bybit/ui.py` reads (`new_margin_calls`) is not a field of the model: the window only saves and loads it with the settings.
- The counter `used_margin_calls` of `bybit/ui.py` is carried in each tracker. None of the modelled operations changes it; the manual buy and sell buttons, which reset it, are not part of this model.
- BybitApi.CloseOrder: the `cancel_all_orders` request that `close_position_market` sends for the Bybit symbol before the close order is not modelled; the order log records only the close order.
- Text.LowerAscii and Text.UpperAscii fold only the ASCII letters, where Python's `str.lower` and `str.upper` fold every letter. At every call the text is a side name such as `buy` or `Sell`, on which the two agree.
- BybitUi.Window.FireTimer: the session's `set_leverage` call and the order reply are not modelled beyond whether the reply carries an order id.
