/** Value types shared by the router, the simulated venue, the guards and the backtest. */
module Types {

  datatype Option<+T> = None | Some(value: T)

  datatype State = Flat | EntryPending | Open | ExitPending | Liquidated | Halted

  /** States only an operator may leave. */
  predicate Frozen(s: State) {
    s == Halted || s == Liquidated
  }

  predicate Pending(s: State) {
    s == EntryPending || s == ExitPending
  }

  datatype Side = Buy | Sell

  /** Client order ids: the router's own (run, instrument, number), the venue's stop orders, anyone else's. */
  datatype Cid = Ours(iid: int, num: nat) | StopOrder(iid: int, num: nat) | Foreign(name: nat)

  datatype Intent = Intent(iid: int, side: Side, quantity: real, notional: real, reduceOnly: bool)

  datatype OrderRequest = OrderRequest(cid: Cid, iid: int, side: Side, quantity: real, reduceOnly: bool)

  datatype OrderStatus =
    | Submitting | Accepted | Resting | Partial | Filled | Cancelled | AutoCancelled | Rejected
    | Lost | Error | ShadowRefused | TimeoutAdopted | Adopted | Abandoned

  predicate GaveUp(s: OrderStatus) {
    s == Lost || s == Error || s == ShadowRefused || s == TimeoutAdopted
  }

  predicate Terminal(s: OrderStatus) {
    GaveUp(s) || s == Filled || s == Cancelled || s == AutoCancelled || s == Rejected
  }

  /** Statuses a venue reports. */
  predicate VenueStatus(s: OrderStatus) {
    s in {Accepted, Resting, Partial, Filled, Cancelled, AutoCancelled, Rejected}
  }

  datatype Event =
    | OrderUpdate(cid: Cid, status: OrderStatus, filled: real)
    | FillUpdate(cid: Cid, iid: int, side: Side, quantity: real, price: real, fee: real)

  datatype PositionView = PositionView(
    iid: int, size: real, entry: real, notional: real, liquidation: Option<real>, funding: real)

  datatype AccountSnapshot = AccountSnapshot(
    equity: real, positions: seq<PositionView>, openOrders: seq<Cid>, stops: map<int, real>, inLiquidation: bool)
  {
    function Position(i: int): Option<PositionView> {
      Find(positions, i)
    }
  }

  /** First view of instrument i, as the snapshot's lookup loop returns it. */
  function Find(ps: seq<PositionView>, i: int): Option<PositionView> {
    if ps == [] then None
    else if ps[0].iid == i then Some(ps[0])
    else Find(ps[1..], i)
  }

  datatype OrderRow = OrderRow(
    iid: int, side: Side, quantity: real, reduceOnly: bool, status: OrderStatus, filled: real, avgPrice: Option<real>)

  datatype PositionRow = PositionRow(
    state: State, size: real, entry: Option<real>, stop: Option<real>, funding: real)

  datatype Decision = Decision(
    iid: int, num: nat, stateBefore: State, intent: Option<Intent>, cid: Option<Cid>)

  /** The three tables the router writes. `orderIds` is the order of submission. */
  datatype Db = Db(decisions: seq<Decision>, orders: map<Cid, OrderRow>, orderIds: seq<Cid>, positions: map<int, PositionRow>)

  datatype Bar = Bar(
    openTs: int, open: Option<real>, high: Option<real>, low: Option<real>, close: Option<real>,
    fundingRate: Option<real>, spreadBps: real, complete: bool)

  datatype Kill = KeepRunning | Pause

  // ----- decimal arithmetic -----

  function Abs(x: real): real {
    if x < 0.0 then -x else x
  }

  function Min(x: real, y: real): real {
    if x <= y then x else y
  }

  function Max(x: real, y: real): real {
    if x <= y then y else x
  }

  function Signed(side: Side, quantity: real): real {
    if side == Buy then quantity else -quantity
  }

  /** Entry price after adding `delta` at `price` to a position of `size` entered at `entry`. */
  function AverageEntry(size: real, entry: real, delta: real, price: real): real
    requires size + delta != 0.0
  {
    (Abs(size) * entry + Abs(delta) * price) / Abs(size + delta)
  }

  /** Quantize to 1e-8 rounding toward zero; used on non-negative amounts only. */
  function FloorQ(x: real): (r: real)
    requires x >= 0.0
    ensures 0.0 <= r <= x < r + 0.00000001
  {
    (x * 100000000.0).Floor as real / 100000000.0
  }

  /** Cents of an amount, with the decimal context's default rounding, half to even. */
  function CentCount(x: real): int {
    var y := x * 100.0;
    var f := y.Floor;
    var d := y - f as real;
    if d < 0.5 || (d == 0.5 && f % 2 == 0) then f else f + 1
  }

  /** Quantize to cents. */
  function Cents(x: real): (r: real)
    ensures x - 0.005 <= r <= x + 0.005
  {
    CentCount(x) as real / 100.0
  }

  /** A number of 1e-8 quanta, and the largest such number not above x. */
  lemma FloorQIsLargest(x: real, n: int)
    requires x >= 0.0
    ensures FloorQ(x) == (x * 100000000.0).Floor as real / 100000000.0
    ensures n as real / 100000000.0 <= x <==> n as real / 100000000.0 <= FloorQ(x)
  {
    var f := (x * 100000000.0).Floor;
    if n as real / 100000000.0 <= x {
      assert n as real <= x * 100000000.0;
      assert n <= f;
    }
  }

  /** A whole number of cents, no further from x than any other, and the even one when two are as near. */
  lemma CentsIsNearest(x: real, m: int)
    ensures Cents(x) == CentCount(x) as real / 100.0
    ensures Abs(x - m as real / 100.0) >= Abs(x - Cents(x))
    ensures Abs(x - m as real / 100.0) == Abs(x - Cents(x)) && m != CentCount(x) ==> CentCount(x) % 2 == 0
  {
    var y := x * 100.0;
    var f := y.Floor;
    var d := y - f as real;
    if m <= f {
      assert y - m as real >= d;
    } else {
      assert m as real - y >= 1.0 - d;
    }
  }
}
