// The trailing-stop bookkeeping the three windows share: the ratchet of the
// stop trigger, the profit water mark, and the reconciliation of the tracker
// map with a poll of open positions.
module Risk {
  import opened Common

  /** The new stop trigger: the calculated level when it is higher than the
      current one, or lower while the position is at a loss. */
  function Ratchet(current: real, calculated: real, pnl: real): real {
    if calculated > current || (pnl < 0.0 && calculated < current) then calculated else current
  }

  /** In profit the trigger never moves down (it becomes the larger of the
      two levels); at a loss it follows the calculated level exactly. */
  lemma RatchetFacts(current: real, calculated: real, pnl: real)
    ensures pnl >= 0.0 ==> Ratchet(current, calculated, pnl) == if calculated > current then calculated else current
    ensures pnl >= 0.0 ==> Ratchet(current, calculated, pnl) >= current
    ensures pnl < 0.0 ==> Ratchet(current, calculated, pnl) == calculated
  {
  }

  /** The ratchet of a tracker that may not hold a trigger yet; a missing
      trigger is set to the calculated level. */
  function RatchetOptional(current: Option<real>, calculated: real, pnl: real): (t: real)
    ensures current.None? ==> t == calculated
    ensures current.Some? && pnl >= 0.0 ==> t >= current.value && (t == current.value || t == calculated)
    ensures pnl < 0.0 ==> t == calculated
  {
    if current.None? then calculated else Ratchet(current.value, calculated, pnl)
  }

  /** The recorded profit high: raised to a higher profit, or lowered to a
      loss below it. */
  function WaterMark(maxPnl: real, pnl: real): real {
    if pnl > maxPnl then pnl else if pnl < 0.0 && pnl < maxPnl then pnl else maxPnl
  }

  /** In profit the mark is the running maximum; at a loss it is the loss. */
  lemma WaterMarkFacts(maxPnl: real, pnl: real)
    ensures pnl >= 0.0 ==> WaterMark(maxPnl, pnl) == if pnl > maxPnl then pnl else maxPnl
    ensures pnl < 0.0 ==> WaterMark(maxPnl, pnl) == pnl
  {
  }

  /** The keys a poll produces. */
  function KeysOf<P>(ps: seq<P>, key: P -> string): set<string> {
    set i | 0 <= i < |ps| :: key(ps[i])
  }

  predicate DistinctKeys<P>(ps: seq<P>, key: P -> string) {
    forall i, j :: 0 <= i < j < |ps| ==> key(ps[i]) != key(ps[j])
  }

  /** The loop over the polled positions: a new key gets a fresh tracker,
      a known key has its tracker refreshed, in poll order. */
  function Upsert<P, T>(m: map<string, T>, ps: seq<P>, key: P -> string,
                        create: P -> T, refresh: (T, P) -> T): map<string, T>
  {
    if ps == [] then m
    else
      var before := Upsert(m, ps[..|ps| - 1], key, create, refresh);
      var p := ps[|ps| - 1];
      before[key(p) := if key(p) in before then refresh(before[key(p)], p) else create(p)]
  }

  /** The tracker map after a poll: upserted, then cut down to the polled keys. */
  function Reconcile<P, T>(m: map<string, T>, ps: seq<P>, key: P -> string,
                           create: P -> T, refresh: (T, P) -> T): map<string, T>
  {
    var u := Upsert(m, ps, key, create, refresh);
    map k | k in u && k in KeysOf(ps, key) :: u[k]
  }

  /** One more polled position: the upsert of the longer prefix is one
      more update, and it adds the position's key. */
  lemma UpsertSnoc<P, T>(m: map<string, T>, ps: seq<P>, key: P -> string,
                         create: P -> T, refresh: (T, P) -> T, i: nat)
    requires i < |ps|
    ensures var before := Upsert(m, ps[..i], key, create, refresh); var p := ps[i];
      Upsert(m, ps[..i + 1], key, create, refresh)
        == before[key(p) := if key(p) in before then refresh(before[key(p)], p) else create(p)]
    ensures KeysOf(ps[..i + 1], key) == KeysOf(ps[..i], key) + {key(ps[i])}
  {
    var longer := ps[..i + 1];
    assert longer[..i] == ps[..i];
    assert longer[i] == ps[i];
    forall k | k in KeysOf(longer, key) ensures k in KeysOf(ps[..i], key) + {key(ps[i])} {
      var j :| 0 <= j < i + 1 && key(longer[j]) == k;
      if j < i {
        assert longer[j] == ps[..i][j];
      }
    }
    forall k | k in KeysOf(ps[..i], key) ensures k in KeysOf(longer, key) {
      var j :| 0 <= j < i && key(ps[..i][j]) == k;
      assert longer[j] == ps[..i][j];
    }
  }

  lemma {:induction false} UpsertKeys<P, T>(m: map<string, T>, ps: seq<P>, key: P -> string,
                                            create: P -> T, refresh: (T, P) -> T)
    ensures Upsert(m, ps, key, create, refresh).Keys == m.Keys + KeysOf(ps, key)
  {
    if ps != [] {
      var init := ps[..|ps| - 1];
      UpsertKeys(m, init, key, create, refresh);
      assert KeysOf(ps, key) == KeysOf(init, key) + {key(ps[|ps| - 1])} by {
        forall k | k in KeysOf(ps, key) ensures k in KeysOf(init, key) + {key(ps[|ps| - 1])} {
          var i :| 0 <= i < |ps| && key(ps[i]) == k;
          if i < |ps| - 1 {
            assert init[i] == ps[i];
          }
        }
        forall k | k in KeysOf(init, key) ensures k in KeysOf(ps, key) {
          var i :| 0 <= i < |init| && key(init[i]) == k;
          assert ps[i] == init[i];
        }
      }
    }
  }

  lemma {:induction false} UpsertUntouched<P, T>(m: map<string, T>, ps: seq<P>, key: P -> string,
                                                 create: P -> T, refresh: (T, P) -> T, k: string)
    requires k in m && k !in KeysOf(ps, key)
    ensures k in Upsert(m, ps, key, create, refresh) && Upsert(m, ps, key, create, refresh)[k] == m[k]
  {
    if ps != [] {
      var init := ps[..|ps| - 1];
      forall i | 0 <= i < |init| ensures key(init[i]) != k {
        assert ps[i] == init[i];
      }
      assert key(ps[|ps| - 1]) != k;
      UpsertUntouched(m, init, key, create, refresh, k);
    }
  }

  /** With one position per key, each polled key gets exactly one update: a
      refresh of its old tracker, or a fresh tracker. */
  lemma {:induction false} UpsertValue<P, T>(m: map<string, T>, ps: seq<P>, key: P -> string,
                                             create: P -> T, refresh: (T, P) -> T, i: nat)
    requires DistinctKeys(ps, key) && i < |ps|
    ensures var u := Upsert(m, ps, key, create, refresh); var k := key(ps[i]);
      k in u && u[k] == if k in m then refresh(m[k], ps[i]) else create(ps[i])
  {
    var init := ps[..|ps| - 1];
    var last := ps[|ps| - 1];
    var before := Upsert(m, init, key, create, refresh);
    UpsertKeys(m, init, key, create, refresh);
    if i == |ps| - 1 {
      forall j | 0 <= j < |init| ensures key(init[j]) != key(last) {
        assert init[j] == ps[j];
      }
      if key(last) in m {
        UpsertUntouched(m, init, key, create, refresh, key(last));
      }
    } else {
      assert init[i] == ps[i];
      assert DistinctKeys(init, key) by {
        forall a, b | 0 <= a < b < |init| ensures key(init[a]) != key(init[b]) {
          assert init[a] == ps[a] && init[b] == ps[b];
        }
      }
      UpsertValue(m, init, key, create, refresh, i);
      assert key(last) != key(ps[i]);
    }
  }

  /** After the poll the tracker keys are exactly the polled keys. */
  lemma ReconcileKeys<P, T>(m: map<string, T>, ps: seq<P>, key: P -> string,
                            create: P -> T, refresh: (T, P) -> T)
    ensures Reconcile(m, ps, key, create, refresh).Keys == KeysOf(ps, key)
  {
    UpsertKeys(m, ps, key, create, refresh);
  }

  /** With one position per key: a known key keeps its tracker, refreshed
      with the polled position, and a new key gets a fresh tracker. */
  lemma ReconcileValue<P, T>(m: map<string, T>, ps: seq<P>, key: P -> string,
                             create: P -> T, refresh: (T, P) -> T, i: nat)
    requires DistinctKeys(ps, key) && i < |ps|
    ensures var r := Reconcile(m, ps, key, create, refresh); var k := key(ps[i]);
      k in r && r[k] == if k in m then refresh(m[k], ps[i]) else create(ps[i])
  {
    UpsertValue(m, ps, key, create, refresh, i);
  }

  /** Polling the same positions twice gives the same trackers as polling
      them once, when refreshing with a position twice is refreshing once
      and a fresh tracker is already up to date with its position. */
  lemma ReconcileIdempotent<P, T>(m: map<string, T>, ps: seq<P>, key: P -> string,
                                  create: P -> T, refresh: (T, P) -> T)
    requires DistinctKeys(ps, key)
    requires forall t, p :: refresh(refresh(t, p), p) == refresh(t, p)
    requires forall p :: refresh(create(p), p) == create(p)
    ensures Reconcile(Reconcile(m, ps, key, create, refresh), ps, key, create, refresh)
         == Reconcile(m, ps, key, create, refresh)
  {
    var once := Reconcile(m, ps, key, create, refresh);
    var twice := Reconcile(once, ps, key, create, refresh);
    ReconcileKeys(m, ps, key, create, refresh);
    ReconcileKeys(once, ps, key, create, refresh);
    forall k | k in twice ensures twice[k] == once[k] {
      var i :| 0 <= i < |ps| && key(ps[i]) == k;
      ReconcileValue(m, ps, key, create, refresh, i);
      ReconcileValue(once, ps, key, create, refresh, i);
    }
  }
}
