/** The pure risk rules: costs, entry guards, exposure caps and protective-exit tests. */
module Guards {
  import opened Types

  const MAX_LEVERAGE := 3.0
  const MIN_LIQ_DISTANCE := 0.25
  const STOP_DISTANCE := 0.15
  const NOTIONAL := 100.0
  const MAX_FUNDING_COST := 0.02
  const MAINTENANCE_RATE := 0.02
  const GROSS_CAP := 1.0
  const CLUSTER_CAP := 0.6

  /** A guard's answer; `Raise` is a division by a zero quantity. */
  datatype Verdict = Allow | Resize(quantity: real) | Reject | Raise

  function FillCost(delta: real, notional: real, spreadBps: real, fee: real, impactBps: real): real
    requires notional != 0.0
  {
    if delta == 0.0 then 0.0
    else delta * (fee + spreadBps / 20000.0 + impactBps / 10000.0 * (delta / notional))
  }

  /** Fee, half the spread, and impact in proportion to the size of the trade. */
  lemma CostParts(delta: real, notional: real, spreadBps: real, fee: real, impactBps: real)
    requires delta >= 0.0 && notional > 0.0 && spreadBps >= 0.0 && fee >= 0.0 && impactBps >= 0.0
    ensures FillCost(delta, notional, spreadBps, fee, impactBps)
         == delta * fee + delta * (spreadBps / 10000.0) / 2.0 + delta * (delta / notional) * (impactBps / 10000.0)
    ensures delta * fee >= 0.0 && delta * (spreadBps / 10000.0) / 2.0 >= 0.0 && delta * (delta / notional) * (impactBps / 10000.0) >= 0.0
  {
    var share, half, impact := delta / notional, spreadBps / 20000.0, impactBps / 10000.0;
    NonNegative(delta, 1.0 / notional);
    assert share == delta * (1.0 / notional);
    NonNegative(delta, share);
    NonNegative(delta * share, impact);
    NonNegative(delta, fee);
    NonNegative(delta, half);
    assert delta * (fee + half + impact * share) == delta * fee + delta * half + delta * (impact * share);
    assert delta * (impact * share) == delta * share * impact;
    assert delta * half == delta * (spreadBps / 10000.0) / 2.0;
  }

  lemma NonNegative(x: real, y: real)
    requires x >= 0.0 && y >= 0.0
    ensures x * y >= 0.0
  {
  }

  lemma Larger(x: real, y: real, x2: real, y2: real)
    requires 0.0 <= x <= x2 && 0.0 <= y <= y2
    ensures x * y <= x2 * y2
  {
    NonNegative(x2 - x, y2);
    NonNegative(x, y2 - y);
    assert x2 * y2 - x * y == (x2 - x) * y2 + x * (y2 - y);
  }

  /** A cost grows with the value traded and with each of its rates. */
  lemma CostGrows(delta: real, notional: real, spreadBps: real, fee: real, impactBps: real,
                  delta2: real, spreadBps2: real, fee2: real, impactBps2: real)
    requires 0.0 <= delta <= delta2 && notional > 0.0
    requires 0.0 <= spreadBps <= spreadBps2 && 0.0 <= fee <= fee2 && 0.0 <= impactBps <= impactBps2
    ensures 0.0 <= FillCost(delta, notional, spreadBps, fee, impactBps) <= FillCost(delta2, notional, spreadBps2, fee2, impactBps2)
  {
    hide FillCost;
    CostParts(delta, notional, spreadBps, fee, impactBps);
    CostParts(delta2, notional, spreadBps2, fee2, impactBps2);
    Larger(delta, fee, delta2, fee2);
    var s, s2 := spreadBps / 10000.0, spreadBps2 / 10000.0;
    Larger(delta, s, delta2, s2);
    Shares(delta, delta2, notional);
    Larger(delta, delta / notional, delta2, delta2 / notional);
    var x, x2, i, i2 := delta * (delta / notional), delta2 * (delta2 / notional), impactBps / 10000.0, impactBps2 / 10000.0;
    Larger(x, i, x2, i2);
    assert FillCost(delta, notional, spreadBps, fee, impactBps) == delta * fee + delta * s / 2.0 + x * i;
    assert FillCost(delta2, notional, spreadBps2, fee2, impactBps2) == delta2 * fee2 + delta2 * s2 / 2.0 + x2 * i2;
  }

  lemma Shares(x: real, y: real, n: real)
    requires 0.0 <= x <= y && n > 0.0
    ensures 0.0 <= x / n <= y / n && 0.0 <= x * (x / n)
  {
    Reciprocal(n);
    assert x / n == x * (1.0 / n) && y / n == y * (1.0 / n);
    NonNegative(x, 1.0 / n);
    Larger(x, 1.0 / n, y, 1.0 / n);
    NonNegative(x, x / n);
  }

  lemma Reciprocal(n: real)
    requires n > 0.0
    ensures 1.0 / n > 0.0
  {
  }

  function StopPrice(long: bool, entry: real): real {
    Cents(entry * (if long then 1.0 - STOP_DISTANCE else 1.0 + STOP_DISTANCE))
  }

  function LiquidationPrice(size: real, entry: real): real {
    Cents(entry * (if size > 0.0 then 1.0 - 1.0 / MAX_LEVERAGE + MAINTENANCE_RATE
                   else 1.0 + 1.0 / MAX_LEVERAGE - MAINTENANCE_RATE))
  }

  /** True when the position must be flattened for its distance to liquidation. */
  predicate TooClose(p: PositionView, mark: real)
    requires mark != 0.0
  {
    p.liquidation.Some? && p.size != 0.0 && Abs(p.liquidation.value - mark) / mark < MIN_LIQ_DISTANCE
  }

  predicate FundingExitDue(p: PositionView) {
    -p.funding >= MAX_FUNDING_COST * p.notional
  }

  // ----- entry guards -----

  function PositionNotional(ps: seq<PositionView>): real {
    if ps == [] then 0.0 else ps[0].notional + PositionNotional(ps[1..])
  }

  /** Notional of the entries among the orders in flight. */
  function EntryNotional(pending: seq<Intent>): real {
    if pending == [] then 0.0
    else (if pending[0].reduceOnly then 0.0 else pending[0].notional) + EntryNotional(pending[1..])
  }

  type Category = nat  // 0..3 are the known clusters, anything else is "other"

  function ClusterOf(categories: map<int, Category>, i: int): nat {
    if i in categories && categories[i] < 4 then categories[i] else 4
  }

  function ClusterPositions(ps: seq<PositionView>, categories: map<int, Category>, c: nat): real {
    if ps == [] then 0.0
    else (if ClusterOf(categories, ps[0].iid) == c
          then (if ps[0].size > 0.0 then ps[0].notional else -ps[0].notional) else 0.0)
         + ClusterPositions(ps[1..], categories, c)
  }

  function ClusterEntries(pending: seq<Intent>, categories: map<int, Category>, c: nat): real {
    if pending == [] then 0.0
    else (if !pending[0].reduceOnly && ClusterOf(categories, pending[0].iid) == c
          then Signed(pending[0].side, pending[0].notional) else 0.0)
         + ClusterEntries(pending[1..], categories, c)
  }

  function VetEntry(intent: Intent, mark: real, equity: real, positions: seq<PositionView>, pending: seq<Intent>): Verdict
    requires mark > 0.0 && intent.notional > 0.0
  {
    if equity <= 0.0 then Reject
    else
      var existing := PositionNotional(positions) + EntryNotional(pending);
      var capRoom := MAX_LEVERAGE * equity - existing;
      var floorRoom := 1.0 / (MIN_LIQ_DISTANCE + MAINTENANCE_RATE) * equity - existing;
      if capRoom <= 0.0 || floorRoom <= 0.0 then Reject
      else
        var allowed := Min(Min(intent.notional, capRoom), floorRoom);
        if allowed >= intent.notional then Allow else Resize(FloorQ(allowed / mark))
  }

  function VetExposure(intent: Intent, equity: real, positions: seq<PositionView>,
                       categories: map<int, Category>, pending: seq<Intent>): Verdict
    requires intent.notional > 0.0 && intent.quantity >= 0.0
  {
    if equity <= 0.0 then Reject
    else
      var c := ClusterOf(categories, intent.iid);
      var grossRoom := GROSS_CAP * equity - (PositionNotional(positions) + EntryNotional(pending));
      var net := ClusterPositions(positions, categories, c) + ClusterEntries(pending, categories, c);
      var clusterRoom := CLUSTER_CAP * equity - Signed(intent.side, net);
      if grossRoom <= 0.0 || clusterRoom <= 0.0 then Reject
      else
        var allowed := Min(Min(intent.notional, grossRoom), clusterRoom);
        if allowed >= intent.notional then Allow
        else if intent.quantity == 0.0 then Raise
        else Resize(FloorQ(allowed / (intent.notional / intent.quantity)))
  }

  function MinResize(verdicts: seq<Verdict>, quantity: real): real {
    if verdicts == [] then quantity
    else
      var rest := MinResize(verdicts[1..], quantity);
      if verdicts[0].Resize? then Min(verdicts[0].quantity, rest) else rest
  }

  /** A notional scaled to a smaller quantity, before it is rounded to cents. */
  function Scaled(notional: real, q: real, q0: real): real
    requires q0 != 0.0
  {
    notional * q / q0
  }

  /** The intent that survives its verdicts: none on any rejection, else the smallest size asked for. An intent of
      quantity zero cannot get smaller. */
  function ApplyGuards(intent: Intent, verdicts: seq<Verdict>): Option<Intent>
  {
    if Reject in verdicts then None
    else
      var q := MinResize(verdicts, intent.quantity);
      if q == intent.quantity || intent.quantity == 0.0 then Some(intent)
      else Some(intent.(quantity := q, notional := Cents(Scaled(intent.notional, q, intent.quantity))))
  }

  /** Prices the feed's sanity bounds let through. */
  predicate PriceOk(p: real) {
    p > 0.0
  }

  /** The largest price at which the fixed notional buys a quantum. */
  const LARGEST_PRICE := 10000000000.0

  /** Prices at which the fixed order is at least a quantum. */
  predicate Sizable(p: real) {
    0.0 < p <= LARGEST_PRICE
  }

  /** The router's fixed-notional entry size: something exactly up to the largest price. */
  function EntryQuantity(mark: real): (q: real)
    requires PriceOk(mark)
    ensures q >= 0.0 && (q > 0.0 <==> mark <= LARGEST_PRICE)
  {
    QuantumSurvives(mark);
    FloorQ(NOTIONAL / mark)
  }

  lemma QuantumSurvives(mark: real)
    requires PriceOk(mark)
    ensures NOTIONAL / mark >= 0.0
    ensures FloorQ(NOTIONAL / mark) > 0.0 <==> mark <= LARGEST_PRICE
  {
    var x := NOTIONAL / mark;
    assert x * mark == NOTIONAL;
    if mark <= LARGEST_PRICE {
      assert x >= 0.00000001;
      assert x * 100000000.0 >= 1.0;
    } else {
      assert x < 0.00000001;
      assert 0.0 <= x * 100000000.0 < 1.0;
    }
  }

  /** The guards' answers to the router's entry. */
  function EntryVerdicts(intent: Intent, mark: real, snap: AccountSnapshot, categories: map<int, Category>, pending: seq<Intent>): (Verdict, Verdict)
    requires PriceOk(mark) && intent.notional > 0.0 && intent.quantity >= 0.0
  {
    (VetEntry(intent, mark, snap.equity, snap.positions, pending),
     VetExposure(intent, snap.equity, snap.positions, categories, pending))
  }

  function PlainEntry(i: int, side: Side, mark: real): Intent
    requires PriceOk(mark)
  {
    Intent(i, side, EntryQuantity(mark), NOTIONAL, false)
  }

  /** The exposure guard divides by the quantity when it has to resize: at a price that buys nothing it raises. */
  predicate EntryRaises(i: int, side: Side, mark: real, snap: AccountSnapshot, categories: map<int, Category>, pending: seq<Intent>)
    requires PriceOk(mark)
  {
    EntryVerdicts(PlainEntry(i, side, mark), mark, snap, categories, pending).1 == Raise
  }

  /** What the router wants to send for an entry, after both guards. */
  function EntryIntent(i: int, side: Side, mark: real, snap: AccountSnapshot,
                       categories: map<int, Category>, pending: seq<Intent>): Option<Intent>
    requires PriceOk(mark)
  {
    var (v1, v2) := EntryVerdicts(PlainEntry(i, side, mark), mark, snap, categories, pending);
    if v2 == Raise then None else ApplyGuards(PlainEntry(i, side, mark), [v1, v2])
  }
}
