/** What the guards add up: every position and every entry in flight once, longs against shorts within a cluster. */
module Exposure {
  import opened Types
  import opened Guards
  import opened Sim

  /** One more position, anywhere in the list, adds its notional. */
  lemma {:induction false} NotionalAdds(ps: seq<PositionView>, p: PositionView, qs: seq<PositionView>)
    ensures PositionNotional([]) == 0.0 && PositionNotional(ps + [p] + qs) == PositionNotional(ps + qs) + p.notional
  {
    if ps == [] {
      assert [] + [p] + qs == [p] + qs && [] + qs == qs && ([p] + qs)[1..] == qs;
    } else {
      NotionalAdds(ps[1..], p, qs);
      assert (ps + [p] + qs)[0] == ps[0] && (ps + [p] + qs)[1..] == ps[1..] + [p] + qs;
      assert (ps + qs)[0] == ps[0] && (ps + qs)[1..] == ps[1..] + qs;
    }
  }

  /** To its own cluster's net a long adds its notional and a short takes it off; it does not touch another's. */
  lemma {:induction false} ClusterAdds(ps: seq<PositionView>, p: PositionView, qs: seq<PositionView>, categories: map<int, Category>, c: nat)
    ensures ClusterPositions([], categories, c) == 0.0
    ensures ClusterPositions(ps + [p] + qs, categories, c) == ClusterPositions(ps + qs, categories, c)
      + if ClusterOf(categories, p.iid) != c then 0.0 else if p.size > 0.0 then p.notional else -p.notional
  {
    if ps == [] {
      assert [] + [p] + qs == [p] + qs && [] + qs == qs && ([p] + qs)[1..] == qs;
    } else {
      ClusterAdds(ps[1..], p, qs, categories, c);
      assert (ps + [p] + qs)[0] == ps[0] && (ps + [p] + qs)[1..] == ps[1..] + [p] + qs;
      assert (ps + qs)[0] == ps[0] && (ps + qs)[1..] == ps[1..] + qs;
    }
  }

  /** An entry in flight adds its notional, a reduce-only order nothing. */
  lemma {:induction false} EntryAdds(xs: seq<Intent>, x: Intent, ys: seq<Intent>, categories: map<int, Category>, c: nat)
    ensures EntryNotional([]) == 0.0 && ClusterEntries([], categories, c) == 0.0
    ensures EntryNotional(xs + [x] + ys) == EntryNotional(xs + ys) + if x.reduceOnly then 0.0 else x.notional
    ensures ClusterEntries(xs + [x] + ys, categories, c) == ClusterEntries(xs + ys, categories, c)
      + if x.reduceOnly || ClusterOf(categories, x.iid) != c then 0.0 else if x.side == Buy then x.notional else -x.notional
  {
    if xs == [] {
      assert [] + [x] + ys == [x] + ys && [] + ys == ys && ([x] + ys)[1..] == ys;
    } else {
      EntryAdds(xs[1..], x, ys, categories, c);
      assert (xs + [x] + ys)[0] == xs[0] && (xs + [x] + ys)[1..] == xs[1..] + [x] + ys;
      assert (xs + ys)[0] == xs[0] && (xs + ys)[1..] == xs[1..] + ys;
    }
  }

  /** Two instruments share a cluster exactly when both are of the same known category, or neither is of a known one. */
  lemma SharesCluster(categories: map<int, Category>, i: int, j: int)
    ensures ClusterOf(categories, i) == ClusterOf(categories, j) <==>
      var known := (k: int) => k in categories && categories[k] < 4;
      (known(i) && known(j) && categories[i] == categories[j]) || (!known(i) && !known(j))
  {
  }

  /** What a snapshot shows the guards: each held instrument's contracts at its mark, once. */
  lemma {:induction false} SnapshotNotional(a: Account, ids: seq<int>)
    ensures PositionNotional(Views(a, ids)) == Gross(a, ids)
  {
    hide View, ValueAt;
    if ids != [] {
      ViewValue(a, ids[0]);
      SnapshotNotional(a, ids[1..]);
      var rest := Views(a, ids[1..]);
      if Size(a, ids[0]) != 0.0 {
        assert ([View(a, ids[0])] + rest)[1..] == rest;
      } else {
        assert [] + rest == rest;
      }
    }
  }

  function ValueAt(size: real, mark: real): real {
    (if size > 0.0 then size else -size) * mark
  }

  lemma ViewValue(a: Account, i: int)
    ensures View(a, i).notional == ValueAt(Size(a, i), MarkOf(a, i)) && (Size(a, i) == 0.0 ==> ValueAt(Size(a, i), MarkOf(a, i)) == 0.0)
  {
    hide LiquidationPrice;
  }

  /** Contracts held times their marks, whichever side. */
  function Gross(a: Account, ids: seq<int>): real {
    if ids == [] then 0.0
    else ValueAt(Size(a, ids[0]), MarkOf(a, ids[0])) + Gross(a, ids[1..])
  }

  // ----- the verdicts -----

  lemma QuantaThatFit(allowed: real, price: real, n: int)
    requires price > 0.0 && allowed >= 0.0
    ensures allowed / price >= 0.0
    ensures n as real / 100000000.0 <= FloorQ(allowed / price) <==> n as real / 100000000.0 * price <= allowed
  {
    var x, q := allowed / price, n as real / 100000000.0;
    assert x * price == allowed;
    NotNegative(allowed, price);
    FloorQIsLargest(x, n);
    if q <= x { assert (x - q) * price >= 0.0; } else { assert (q - x) * price > 0.0; }
  }

  lemma NotNegative(x: real, y: real)
    requires x >= 0.0 && y > 0.0
    ensures x / y >= 0.0
  {
  }

  /** The leverage guard rejects exactly when there is no equity or one of its two limits - three times equity, and equity
      over 27% - is used up; allows exactly when the whole entry fits under both; and otherwise resizes to the most quanta
      that fit at the mark. */
  lemma LeverageVerdict(intent: Intent, mark: real, equity: real, ps: seq<PositionView>, pending: seq<Intent>, n: int)
    requires mark > 0.0 && intent.notional > 0.0
    ensures var v, used := VetEntry(intent, mark, equity, ps, pending), PositionNotional(ps) + EntryNotional(pending);
      var room := Min(3.0 * equity, equity / 0.27) - used;
      && (v.Reject? <==> equity <= 0.0 || room <= 0.0)
      && (v.Allow? <==> equity > 0.0 && room > 0.0 && used + intent.notional <= 3.0 * equity && used + intent.notional <= equity / 0.27)
      && (v.Resize? ==> (n as real / 100000000.0 <= v.quantity <==> n as real / 100000000.0 * mark <= room))
      && !v.Raise?
  {
    hide PositionNotional, EntryNotional, FloorQ;
    assert 1.0 / (0.25 + 0.02) * equity == equity / 0.27;
    var room := Min(3.0 * equity, equity / 0.27) - (PositionNotional(ps) + EntryNotional(pending));
    if room > 0.0 { QuantaThatFit(room, mark, n); }
  }

  /** The liquidation-distance floor never decides: what it admits is more than three times equity, and the exposure guard
      admits no more than equity itself. */
  lemma FloorNeverBinds(equity: real)
    requires equity > 0.0
    ensures equity < 3.0 * equity < 1.0 / (MIN_LIQ_DISTANCE + MAINTENANCE_RATE) * equity
  {
  }

  /** What the exposure guard leaves the entry: equity less what is used, and 60% of equity less the cluster's net on its side. */
  function CapRoom(intent: Intent, equity: real, ps: seq<PositionView>, categories: map<int, Category>, pending: seq<Intent>): real {
    var c := ClusterOf(categories, intent.iid);
    var net := ClusterPositions(ps, categories, c) + ClusterEntries(pending, categories, c);
    Min(equity - (PositionNotional(ps) + EntryNotional(pending)), 0.6 * equity - if intent.side == Buy then net else -net)
  }

  lemma ExposureCases(intent: Intent, equity: real, ps: seq<PositionView>, categories: map<int, Category>, pending: seq<Intent>)
    requires intent.notional > 0.0 && intent.quantity >= 0.0
    ensures var v, room := VetExposure(intent, equity, ps, categories, pending), CapRoom(intent, equity, ps, categories, pending);
      if equity <= 0.0 || room <= 0.0 then v == Reject
      else if intent.notional <= room then v == Allow
      else if intent.quantity == 0.0 then v == Raise
      else room / (intent.notional / intent.quantity) >= 0.0 && v == Resize(FloorQ(room / (intent.notional / intent.quantity)))
  {
    hide PositionNotional, EntryNotional, ClusterPositions, ClusterEntries, ClusterOf, FloorQ;
    var room := CapRoom(intent, equity, ps, categories, pending);
    if room > 0.0 && intent.quantity > 0.0 {
      PricePositive(intent.notional, intent.quantity);
      NotNegative(room, intent.notional / intent.quantity);
    }
  }

  /** The exposure guard the same, against that room and at the entry's own price; a resize of an entry that has no quantity
      raises. */
  lemma ExposureVerdict(intent: Intent, equity: real, ps: seq<PositionView>, categories: map<int, Category>, pending: seq<Intent>, n: int)
    requires intent.notional > 0.0 && intent.quantity >= 0.0
    ensures var v, room := VetExposure(intent, equity, ps, categories, pending), CapRoom(intent, equity, ps, categories, pending);
      && (v.Reject? <==> equity <= 0.0 || room <= 0.0)
      && (v.Allow? <==> equity > 0.0 && room > 0.0 && intent.notional <= room)
      && (v.Raise? <==> equity > 0.0 && 0.0 < room < intent.notional && intent.quantity == 0.0)
      && (v.Resize? && intent.quantity > 0.0 ==>
            (n as real / 100000000.0 <= v.quantity <==> n as real / 100000000.0 * (intent.notional / intent.quantity) <= room))
  {
    hide VetExposure, CapRoom, FloorQ;
    ExposureCases(intent, equity, ps, categories, pending);
    var room := CapRoom(intent, equity, ps, categories, pending);
    if room > 0.0 && intent.quantity > 0.0 {
      PricePositive(intent.notional, intent.quantity);
      QuantaThatFit(room, intent.notional / intent.quantity, n);
    }
  }

  lemma PricePositive(x: real, y: real)
    requires x > 0.0 && y > 0.0
    ensures x / y > 0.0
  {
  }
}
