// The flag logic the windows share: the edge-triggered price alerts and the
// debounce on empty position polls that gates the automatic re-entry.
module Control {
  import opened Common

  /** One price update for one alert: whether it fires, and the new
      "triggered" flag. An alert with a threshold of 0 or less is off. */
  datatype AlertStep = AlertStep(fires: bool, triggered: bool)

  /** The alert above the threshold (`above`) or below it. */
  function Alert(above: bool, threshold: real, triggered: bool, price: real): (r: AlertStep)
    ensures r.fires ==> !triggered && r.triggered
    ensures r.triggered <==> threshold > 0.0 && (if above then price >= threshold else price <= threshold)
  {
    if threshold > 0.0 && (if above then price >= threshold else price <= threshold) then AlertStep(!triggered, true)
    else AlertStep(false, false)
  }

  predicate InAlertZone(above: bool, threshold: real, price: real) {
    threshold > 0.0 && (if above then price >= threshold else price <= threshold)
  }

  /** How often the alert fires over a run of prices, and the final flag. */
  function AlertRun(above: bool, threshold: real, triggered: bool, prices: seq<real>): (nat, bool)
    decreases |prices|
  {
    if prices == [] then (0, triggered)
    else
      var step := Alert(above, threshold, triggered, prices[0]);
      var rest := AlertRun(above, threshold, step.triggered, prices[1..]);
      ((if step.fires then 1 else 0) + rest.0, rest.1)
  }

  /** While the price stays in the alert zone the alert fires at most once,
      and exactly once when it was not already triggered. */
  lemma {:induction false} AlertFiresOncePerVisit(above: bool, threshold: real, triggered: bool, prices: seq<real>)
    requires forall i :: 0 <= i < |prices| ==> InAlertZone(above, threshold, prices[i])
    ensures AlertRun(above, threshold, triggered, prices).0 == if triggered || prices == [] then 0 else 1
    ensures prices != [] ==> AlertRun(above, threshold, triggered, prices).1
    decreases |prices|
  {
    if prices != [] {
      AlertFiresOncePerVisit(above, threshold, true, prices[1..]);
    }
  }

  /** Leaving the zone re-arms the alert: the next visit fires again. */
  lemma AlertRearms(above: bool, threshold: real, triggered: bool, outside: real, inside: real)
    requires !InAlertZone(above, threshold, outside) && InAlertZone(above, threshold, inside)
    ensures AlertRun(above, threshold, triggered, [outside, inside]).0 == 1
  {
    var first := Alert(above, threshold, triggered, outside);
    assert !first.triggered && !first.fires;
    assert [outside, inside][1..] == [inside];
    assert [inside][1..] == [];
    assert AlertRun(above, threshold, false, [inside]).0 == 1;
  }

  /** What a position poll does to the empty-poll counter and the monitoring
      flag, and whether it starts the signal monitor. `None` is a poll that
      failed; `Some(nonEmpty)` tells whether any position came back. */
  datatype PollOutcome = PollOutcome(emptyCount: nat, monitoring: bool, start: bool)

  function Debounce(emptyCount: nat, monitoring: bool, autoOpen: bool, poll: Option<bool>): (r: PollOutcome)
    ensures poll.None? ==> r == PollOutcome(emptyCount, monitoring, false)
    ensures poll == Some(true) ==> r == PollOutcome(0, false, false)
    ensures poll == Some(false) ==> r.emptyCount == emptyCount + 1 && r.monitoring == monitoring
    ensures r.start <==> poll == Some(false) && autoOpen && !monitoring && emptyCount >= 3
  {
    match poll
    case None => PollOutcome(emptyCount, monitoring, false)
    case Some(nonEmpty) =>
      var count := if nonEmpty then 0 else emptyCount + 1;
      var flag := if nonEmpty then false else monitoring;
      PollOutcome(count, flag, !nonEmpty && autoOpen && !flag && count > 3)
  }

  /** The counter after a run of polls. */
  function CountAfter(emptyCount: nat, polls: seq<Option<bool>>): nat
    decreases |polls|
  {
    if polls == [] then emptyCount
    else CountAfter(Debounce(emptyCount, false, false, polls[0]).emptyCount, polls[1..])
  }

  function Empties(polls: seq<Option<bool>>): nat {
    if polls == [] then 0 else (if polls[0] == Some(false) then 1 else 0) + Empties(polls[1..])
  }

  /** The counter counts the empty polls since the last non-empty one
      (failed polls do not count), or since the start when there was none. */
  lemma {:induction false} CountIsEmptyStreak(emptyCount: nat, polls: seq<Option<bool>>)
    ensures (forall i :: 0 <= i < |polls| ==> polls[i] != Some(true)) ==>
              CountAfter(emptyCount, polls) == emptyCount + Empties(polls)
    ensures forall i :: 0 <= i < |polls| && polls[i] == Some(true)
              && (forall j :: i < j < |polls| ==> polls[j] != Some(true))
              ==> CountAfter(emptyCount, polls) == Empties(polls[i + 1..])
    decreases |polls|
  {
    if polls != [] {
      var next := Debounce(emptyCount, false, false, polls[0]).emptyCount;
      CountIsEmptyStreak(next, polls[1..]);
      forall i | 0 <= i < |polls| && polls[i] == Some(true)
                 && (forall j :: i < j < |polls| ==> polls[j] != Some(true))
        ensures CountAfter(emptyCount, polls) == Empties(polls[i + 1..])
      {
        if i == 0 {
          assert next == 0;
          assert forall j :: 0 <= j < |polls[1..]| ==> polls[1..][j] == polls[j + 1];
        } else {
          assert polls[1..][i - 1] == polls[i];
          assert polls[1..][i..] == polls[i + 1..];
        }
      }
    }
  }
}
