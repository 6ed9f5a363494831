/** What the two guards leave of the router's fixed-size entry, and exactly when they leave something. */
module Sizing {
  import opened Types
  import opened Guards

  const QUANTUM := 0.00000001

  /** With two verdicts the surviving quantity is the smallest of the fixed size and the two resizes. */
  lemma TwoVerdicts(intent: Intent, v1: Verdict, v2: Verdict)
    ensures ApplyGuards(intent, [v1, v2]).None? <==> v1.Reject? || v2.Reject?
    ensures !v1.Reject? && !v2.Reject? && intent.quantity > 0.0 ==>
      var x := ApplyGuards(intent, [v1, v2]).value;
      && x.quantity <= intent.quantity && (v1.Resize? ==> x.quantity <= v1.quantity) && (v2.Resize? ==> x.quantity <= v2.quantity)
      && (x.quantity == intent.quantity || (v1.Resize? && x.quantity == v1.quantity) || (v2.Resize? && x.quantity == v2.quantity))
      && x == intent.(quantity := x.quantity, notional := x.notional)
      && x.notional == (if x.quantity == intent.quantity then intent.notional
                        else Cents(Scaled(intent.notional, x.quantity, intent.quantity)))
    ensures !v1.Reject? && !v2.Reject? && intent.quantity == 0.0 ==> ApplyGuards(intent, [v1, v2]) == Some(intent)
  {
    hide Cents, Scaled;
    assert [v1, v2][1..] == [v2];
    assert [v2][1..] == [];
    assert MinResize([], intent.quantity) == intent.quantity;
    assert MinResize([v2], intent.quantity) == if v2.Resize? then Min(v2.quantity, intent.quantity) else intent.quantity;
  }

  lemma VerdictQuantities(intent: Intent, mark: real, equity: real, positions: seq<PositionView>,
                          categories: map<int, Category>, pending: seq<Intent>)
    requires mark > 0.0 && intent.notional > 0.0 && intent.quantity >= 0.0
    ensures var v := VetEntry(intent, mark, equity, positions, pending); !v.Raise? && (v.Resize? ==> v.quantity >= 0.0)
    ensures var v := VetExposure(intent, equity, positions, categories, pending);
      (v.Resize? ==> v.quantity >= 0.0 && intent.quantity > 0.0) && (v.Raise? ==> intent.quantity == 0.0)
  {
    hide PositionNotional, EntryNotional, ClusterPositions, ClusterEntries, ClusterOf;
  }

  /** The router's entry after both guards, told by their verdicts. */
  lemma EntryIs(i: int, side: Side, mark: real, snap: AccountSnapshot, categories: map<int, Category>, pending: seq<Intent>)
    requires PriceOk(mark)
    ensures var intent := PlainEntry(i, side, mark);
      var (v1, v2) := EntryVerdicts(intent, mark, snap, categories, pending);
      EntryIntent(i, side, mark, snap, categories, pending)
      == if v2.Raise? then None else ApplyGuards(intent, [v1, v2])
  {
    hide EntryVerdicts, ApplyGuards, EntryQuantity;
  }

  /** A surviving entry keeps its instrument, side and kind, and its quantity is between zero and the fixed size. */
  lemma EntryIntentShape(i: int, side: Side, mark: real, snap: AccountSnapshot, categories: map<int, Category>,
                         pending: seq<Intent>)
    requires PriceOk(mark)
    ensures var x := EntryIntent(i, side, mark, snap, categories, pending);
      x.Some? ==> x.value.iid == i && x.value.side == side && !x.value.reduceOnly
                  && 0.0 <= x.value.quantity <= EntryQuantity(mark)
  {
    hide VetEntry, VetExposure, EntryQuantity, ApplyGuards, EntryIntent;
    var intent := PlainEntry(i, side, mark);
    var (v1, v2) := EntryVerdicts(intent, mark, snap, categories, pending);
    VerdictQuantities(intent, mark, snap.equity, snap.positions, categories, pending);
    TwoVerdicts(intent, v1, v2);
    EntryIs(i, side, mark, snap, categories, pending);
  }

  // ----- room for a quantum -----

  /** What the leverage cap and the liquidation-distance floor leave. */
  function LeverageRoom(snap: AccountSnapshot, pending: seq<Intent>): real {
    var existing := PositionNotional(snap.positions) + EntryNotional(pending);
    Min(MAX_LEVERAGE * snap.equity - existing, 1.0 / (MIN_LIQ_DISTANCE + MAINTENANCE_RATE) * snap.equity - existing)
  }

  /** What the gross and the cluster cap leave. */
  function ExposureRoom(i: int, side: Side, snap: AccountSnapshot, categories: map<int, Category>, pending: seq<Intent>): real {
    var c := ClusterOf(categories, i);
    Min(GROSS_CAP * snap.equity - (PositionNotional(snap.positions) + EntryNotional(pending)),
        CLUSTER_CAP * snap.equity - Signed(side, ClusterPositions(snap.positions, categories, c) + ClusterEntries(pending, categories, c)))
  }

  /** Price per contract the exposure guard works with. */
  function UnitNotional(mark: real): real
    requires Sizable(mark)
  {
    NOTIONAL / EntryQuantity(mark)
  }

  predicate RoomForAQuantum(i: int, side: Side, mark: real, snap: AccountSnapshot, categories: map<int, Category>, pending: seq<Intent>) {
    && Sizable(mark)
    && LeverageRoom(snap, pending) >= QUANTUM * mark
    && ExposureRoom(i, side, snap, categories, pending) >= QUANTUM * UnitNotional(mark)
  }

  lemma Survives(x: real, price: real)
    requires x >= 0.0 && price > 0.0
    ensures FloorQ(x / price) > 0.0 <==> x >= QUANTUM * price
  {
    var y := x / price;
    assert y * price == x;
    if x >= QUANTUM * price {
      assert y >= QUANTUM;
      assert y * 100000000.0 >= 1.0;
    } else {
      assert y < QUANTUM;
      assert 0.0 <= y * 100000000.0 < 1.0;
    }
  }

  lemma UnitNotionalBound(mark: real)
    requires Sizable(mark)
    ensures UnitNotional(mark) > 0.0 && QUANTUM * UnitNotional(mark) <= NOTIONAL && QUANTUM * mark <= NOTIONAL
  {
    hide EntryQuantity;
    var q := EntryQuantity(mark);
    WholeQuanta(mark);
    assert NOTIONAL / q * q == NOTIONAL;
    assert NOTIONAL / q > 0.0;
    assert QUANTUM * (NOTIONAL / q) <= q * (NOTIONAL / q);
  }

  lemma WholeQuanta(mark: real)
    requires Sizable(mark)
    ensures EntryQuantity(mark) >= QUANTUM
  {
    var x := NOTIONAL / mark;
    assert x * mark == NOTIONAL;
    assert x >= QUANTUM;
    assert x * 100000000.0 >= 1.0;
  }

  lemma EntryLeaves(intent: Intent, mark: real, snap: AccountSnapshot, pending: seq<Intent>)
    requires mark > 0.0 && intent.notional == NOTIONAL && QUANTUM * mark <= NOTIONAL
    requires !VetEntry(intent, mark, snap.equity, snap.positions, pending).Reject?
    ensures var v := VetEntry(intent, mark, snap.equity, snap.positions, pending);
      (v.Resize? ==> v.quantity > 0.0) <==> LeverageRoom(snap, pending) >= QUANTUM * mark
  {
    hide PositionNotional, EntryNotional, FloorQ;
    var existing := PositionNotional(snap.positions) + EntryNotional(pending);
    var cap, floor := MAX_LEVERAGE * snap.equity - existing, 1.0 / (MIN_LIQ_DISTANCE + MAINTENANCE_RATE) * snap.equity - existing;
    Survives(Min(Min(NOTIONAL, cap), floor), mark);
  }

  lemma ExposureLeaves(intent: Intent, snap: AccountSnapshot, categories: map<int, Category>, pending: seq<Intent>, price: real)
    requires intent.notional == NOTIONAL && intent.quantity > 0.0 && price == NOTIONAL / intent.quantity && 0.0 < QUANTUM * price <= NOTIONAL
    requires !VetExposure(intent, snap.equity, snap.positions, categories, pending).Reject?
    ensures var v := VetExposure(intent, snap.equity, snap.positions, categories, pending);
      (v.Resize? ==> v.quantity > 0.0) <==> ExposureRoom(intent.iid, intent.side, snap, categories, pending) >= QUANTUM * price
  {
    hide PositionNotional, EntryNotional, ClusterPositions, ClusterEntries, ClusterOf, FloorQ;
    var c := ClusterOf(categories, intent.iid);
    var gross := GROSS_CAP * snap.equity - (PositionNotional(snap.positions) + EntryNotional(pending));
    var cluster := CLUSTER_CAP * snap.equity
      - Signed(intent.side, ClusterPositions(snap.positions, categories, c) + ClusterEntries(pending, categories, c));
    Survives(Min(Min(NOTIONAL, gross), cluster), price);
  }

  /** An entry that survives the guards has a quantity if and only if its price is one the fixed notional buys a
      quantum at and both guards' rooms hold a quantum's worth. */
  lemma EntrySizedExactly(i: int, side: Side, mark: real, snap: AccountSnapshot, categories: map<int, Category>, pending: seq<Intent>)
    requires PriceOk(mark) && EntryIntent(i, side, mark, snap, categories, pending).Some?
    ensures EntryIntent(i, side, mark, snap, categories, pending).value.quantity > 0.0
       <==> RoomForAQuantum(i, side, mark, snap, categories, pending)
  {
    hide VetEntry, VetExposure, EntryQuantity, LeverageRoom, ExposureRoom, UnitNotional, ApplyGuards, EntryIntent;
    var intent := PlainEntry(i, side, mark);
    var (v1, v2) := EntryVerdicts(intent, mark, snap, categories, pending);
    EntryIs(i, side, mark, snap, categories, pending);
    VerdictQuantities(intent, mark, snap.equity, snap.positions, categories, pending);
    TwoVerdicts(intent, v1, v2);
    if Sizable(mark) {
      UnitNotionalBound(mark);
      UnitNotionalIs(mark);
      EntryLeaves(intent, mark, snap, pending);
      ExposureLeaves(intent, snap, categories, pending, UnitNotional(mark));
    }
  }

  lemma UnitNotionalIs(mark: real)
    requires Sizable(mark)
    ensures UnitNotional(mark) == NOTIONAL / EntryQuantity(mark)
  {
  }
}
