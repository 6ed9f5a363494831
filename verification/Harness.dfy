/** The backtest as a function of its bars: one book, one event loop, one step per bar. */
module Harness {
  import opened Types
  import opened Guards
  import Routing

  /** A strategy answers a target from the bars so far and may keep state of its own. */
  datatype Strategy<!S> = Strategy(target: (S, seq<Bar>) -> (S, real), flattened: S -> S)

  datatype CostModel = CostModel(notional: real, fee: real, impactBps: real)

  /** Settings of a run; `keys` is the sorted list of minute closes, empty when only hourly opens may fill. */
  datatype Settings = Settings(costs: CostModel, latency: nat, maxAge: nat, closes: map<int, real>, keys: seq<int>)

  datatype Kind = FundingRow | FillRow | NoFillRow | GapRow | MarkRow | StopRow | GuardRow

  datatype LedgerRow = LedgerRow(ts: int, kind: Kind, position: real, price: Option<real>, cashDelta: real, equity: real)

  datatype TradeRow = TradeRow(ts: int, side: Side, quantity: real)

  datatype HBook = HBook(cash: real, position: real, entry: real, funding: real)

  datatype Report = Report(
    ledger: seq<LedgerRow>, equity: seq<(int, real)>, gains: seq<real>, tradePnls: seq<real>, fillNotionals: seq<real>,
    trades: seq<TradeRow>, unavailable: nat, atHourlyOpen: nat, atLastTrade: nat)

  datatype Run<S> = Run(book: HBook, report: Report, lastEquity: real, strategy: S)

  const EMPTY_REPORT := Report([], [], [], [], [], [], 0, 0, 0)

  function Start<S>(s: S): Run<S> {
    Run(HBook(0.0, 0.0, 0.0, 0.0), EMPTY_REPORT, 0.0, s)
  }

  // ----- the book -----

  function Sign(x: real): int {
    if x > 0.0 then 1 else if x < 0.0 then -1 else 0
  }

  /** Profit of `position` (a fraction of notional) from entry to price. */
  function Pnl(position: real, notional: real, entry: real, price: real): real
    requires entry != 0.0
  {
    position * notional * (price / entry - 1.0)
  }

  function Unrealised(b: HBook, notional: real, price: real): real {
    if b.position == 0.0 || b.entry == 0.0 then 0.0 else Pnl(b.position, notional, b.entry, price)
  }

  function Equity(b: HBook, notional: real, price: Option<real>): real {
    b.cash + if price.Some? then Unrealised(b, notional, price.value) else 0.0
  }

  function Contracts(fraction: real, notional: real, price: real): real
    requires price != 0.0
  {
    Abs(fraction) * notional / price
  }

  lemma ContractsNonNegative(fraction: real, notional: real, price: real)
    requires price > 0.0 && notional > 0.0
    ensures Contracts(fraction, notional, price) >= 0.0
  {
    var x := Abs(fraction) * notional;
    assert x >= 0.0;
    Quotient(x, price);
  }

  lemma Quotient(x: real, y: real)
    requires x >= 0.0 && y > 0.0
    ensures x / y >= 0.0
  {
  }

  /** Contracts for a leg worth |fraction| of notional: the router's quantity rule. */
  function Units(fraction: real, notional: real, price: real): real
    requires price > 0.0 && notional > 0.0
  {
    ContractsNonNegative(fraction, notional, price);
    FloorQ(Contracts(fraction, notional, price))
  }

  function OpeningValue(delta: real, notional: real): real {
    Abs(delta) * notional
  }

  function ClosingValue(delta: real, notional: real, price: real, entry: real): real
    requires entry != 0.0
  {
    Abs(delta) * notional * price / entry
  }

  /** The book as the router's guards see a venue position. */
  function BookSize(b: HBook, notional: real): real
    requires b.entry != 0.0
  {
    b.position * notional / b.entry
  }

  function BookView(b: HBook, notional: real, price: real): PositionView
    requires b.entry != 0.0
  {
    var size := BookSize(b, notional);
    PositionView(0, size, b.entry, NotionalAt(size, price), Some(LiquidationPrice(size, b.entry)), b.funding)
  }

  function NotionalAt(size: real, price: real): real {
    Abs(size) * price
  }

  // ----- writing rows -----

  function Log<S>(r: Run<S>, c: CostModel, ts: int, kind: Kind, price: Option<real>, cashDelta: real): Run<S> {
    r.(report := r.report.(ledger := r.report.ledger +
      [LedgerRow(ts, kind, r.book.position, price, cashDelta, Equity(r.book, c.notional, price))]))
  }

  function Mark<S>(r: Run<S>, c: CostModel, ts: int, price: Option<real>): Run<S>
    requires c.notional != 0.0
  {
    var eq := Equity(r.book, c.notional, price);
    Log(r.(report := r.report.(equity := r.report.equity + [(ts, eq)],
                               gains := r.report.gains + [(eq - r.lastEquity) / c.notional]),
           lastEquity := eq), c, ts, MarkRow, price, 0.0)
  }

  // ----- one trade -----

  predicate Reducing(position: real, target: real) {
    position != 0.0 && Abs(target) < Abs(position)
  }

  /** The leg a reduction closes, signed like the position. */
  function ClosedLeg(position: real, target: real): real {
    (Abs(position) - Abs(target)) * (Sign(position) as real)
  }

  /** Entry, realised profit (if any leg closes), traded value and contracts of a trade from `b` to `target`. */
  datatype Leg = Leg(entry: real, realised: Option<real>, value: real, quantity: real)

  function LegOf(b: HBook, notional: real, target: real, price: real): Leg
    requires notional > 0.0 && (b.position != 0.0 ==> b.entry > 0.0)
    requires price > 0.0 || Reducing(b.position, target)
  {
    var delta := target - b.position;
    if b.position != 0.0 && target == 0.0 then
      Leg(0.0, Some(Pnl(b.position, notional, b.entry, price)), ClosingValue(delta, notional, price, b.entry),
          Units(delta, notional, b.entry))
    else if Reducing(b.position, target) then
      Leg(b.entry, Some(Pnl(ClosedLeg(b.position, target), notional, b.entry, price)),
          ClosingValue(delta, notional, price, b.entry), Units(delta, notional, b.entry))
    else
      Leg(if target == 0.0 then 0.0 else AverageCost(b.position, b.entry, delta, price, target), None,
          OpeningValue(delta, notional), Units(delta, notional, price))
  }

  /** Size-weighted arithmetic average of the retained and the added notional. */
  function AverageCost(position: real, entry: real, delta: real, price: real, target: real): real
    requires target != 0.0
  {
    (Abs(position) * entry + Abs(delta) * price) / Abs(target)
  }

  function TradeCost(c: CostModel, value: real, spreadBps: real): real
    requires c.notional > 0.0
  {
    FillCost(value, c.notional, spreadBps, c.fee, c.impactBps)
  }

  function TradeTo<S>(r: Run<S>, c: CostModel, strategy: Strategy<S>, target: real, price: real, spreadBps: real, ts: int, kind: Kind): Run<S>
    requires c.notional > 0.0 && (r.book.position != 0.0 ==> r.book.entry > 0.0)
    requires price > 0.0 || Reducing(r.book.position, target)
  {
    var b := r.book;
    var delta := target - b.position;
    if delta == 0.0 then r
    else
      var leg := LegOf(b, c.notional, target, price);
      var cost := TradeCost(c, leg.value, spreadBps);
      var realised := if leg.realised.Some? then leg.realised.value else 0.0;
      var book := HBook(b.cash + realised - cost, target, leg.entry, if target == 0.0 then 0.0 else b.funding);
      var report := r.report.(
        tradePnls := if leg.realised.Some? then r.report.tradePnls + [realised] else r.report.tradePnls,
        fillNotionals := r.report.fillNotionals + [leg.value],
        trades := r.report.trades + [TradeRow(ts, if delta > 0.0 then Buy else Sell, leg.quantity)]);
      var r1 := Log(r.(book := book, report := report), c, ts, kind, Some(price), -cost);
      if target == 0.0 then r1.(strategy := strategy.flattened(r1.strategy)) else r1
  }

  // ----- one bar -----

  predicate PricesOk(bar: Bar) {
    && (bar.open.Some? ==> bar.open.value > 0.0) && (bar.high.Some? ==> bar.high.value > 0.0)
    && (bar.low.Some? ==> bar.low.value > 0.0) && (bar.close.Some? ==> bar.close.value > 0.0)
  }

  ghost predicate InputsOk(z: Settings, bars: seq<Bar>) {
    && z.costs.notional > 0.0
    && (forall k :: k in z.closes ==> z.closes[k] > 0.0)
    && (forall t :: 0 <= t < |bars| ==> PricesOk(bars[t]))
    && (forall k :: k in z.keys ==> k in z.closes)
  }

  predicate BookOk(b: HBook) {
    b.position != 0.0 ==> b.entry > 0.0
  }

  /** 1. The intrabar stop. */
  predicate StopHit(b: HBook, bar: Bar) {
    && b.position != 0.0 && bar.high.Some? && bar.low.Some?
    && var trigger := StopPrice(b.position > 0.0, b.entry);
    if b.position > 0.0 then bar.low.value <= trigger else bar.high.value >= trigger
  }

  function StopPhase<S>(r: Run<S>, z: Settings, strategy: Strategy<S>, bar: Bar): Run<S>
    requires z.costs.notional > 0.0 && BookOk(r.book)
  {
    if StopHit(r.book, bar) then
      TradeTo(r, z.costs, strategy, 0.0, StopPrice(r.book.position > 0.0, r.book.entry), bar.spreadBps, bar.openTs, StopRow)
    else r
  }

  /** 2. Funding on the position's value at the close. */
  function FundingPaid(b: HBook, notional: real, close: real, rate: real): real
    requires b.entry != 0.0
  {
    -b.position * notional * (close / b.entry) * rate
  }

  function FundingPhase<S>(r: Run<S>, z: Settings, bar: Bar): Run<S>
    requires BookOk(r.book)
  {
    if r.book.position != 0.0 && bar.fundingRate.Some? && bar.close.Some? then
      var paid := FundingPaid(r.book, z.costs.notional, bar.close.value, bar.fundingRate.value);
      Log(r.(book := r.book.(cash := r.book.cash + paid, funding := r.book.funding + paid)), z.costs, bar.openTs,
          FundingRow, bar.close, paid)
    else r
  }

  /** 3. An incomplete bar, or a next bar without a price, is flattened before. A held position always has this
      close (HeldSeesPrices). */
  predicate Gap(bar: Bar, next: Bar) {
    !bar.complete || next.close.None?
  }

  function GapPhase<S>(r: Run<S>, z: Settings, strategy: Strategy<S>, bar: Bar, next: Bar): Run<S>
    requires z.costs.notional > 0.0 && BookOk(r.book) && PricesOk(bar)
  {
    if r.book.position != 0.0 && bar.close.Some? then
      TradeTo(r, z.costs, strategy, 0.0, bar.close.value, bar.spreadBps, next.openTs, GapRow)
    else r
  }

  /** 4. The router's protective exits, at the close. */
  predicate GuardExit(b: HBook, notional: real, close: real)
    requires b.position != 0.0 && BookOk(b) && close > 0.0
  {
    TooClose(BookView(b, notional, close), close) || FundingExitDue(BookView(b, notional, close))
  }

  function GuardPhase<S>(r: Run<S>, z: Settings, strategy: Strategy<S>, bar: Bar, next: Bar): Run<S>
    requires z.costs.notional > 0.0 && BookOk(r.book) && PricesOk(bar)
  {
    if r.book.position != 0.0 && bar.close.Some? && GuardExit(r.book, z.costs.notional, bar.close.value) then
      TradeTo(r, z.costs, strategy, 0.0, bar.close.value, bar.spreadBps, next.openTs, GuardRow)
    else r
  }

  // ----- fill prices -----

  function FloorMinute(ts: int): int {
    ts - ts % 60
  }

  /** How many sorted keys are at or before `at`. */
  function BisectRight(keys: seq<int>, at: int): (i: nat)
    ensures i <= |keys|
  {
    if keys == [] then 0
    else if keys[|keys| - 1] <= at then |keys|
    else BisectRight(keys[..|keys| - 1], at)
  }

  /** The newest minute close at or before the fill minute, if it is fresh enough. */
  function LastTrade(z: Settings, at: int): Option<int> {
    var i := BisectRight(z.keys, at);
    if i > 0 && at - z.keys[i - 1] <= z.maxAge * 60 then Some(z.keys[i - 1]) else None
  }

  datatype Source = AtMinute | AtLastTrade | AtHourlyOpen | Unavailable

  function FillSource(z: Settings, next: Bar): Source {
    var minute := FloorMinute(next.openTs + z.latency);
    if minute in z.closes then AtMinute
    else if LastTrade(z, minute).Some? && LastTrade(z, minute).value in z.closes then AtLastTrade
    else if next.open.Some? then AtHourlyOpen
    else Unavailable
  }

  function FillPrice(z: Settings, next: Bar): real {
    var minute := FloorMinute(next.openTs + z.latency);
    match FillSource(z, next)
    case AtMinute => z.closes[minute]
    case AtLastTrade => z.closes[LastTrade(z, minute).value]
    case AtHourlyOpen => next.open.value
    case Unavailable => 0.0
  }

  /** 5. The decision: a flip exits this bar and may re-enter next bar. */
  function Wanted(position: real, target: real): real {
    if position != 0.0 && target != 0.0 && Sign(target) != Sign(position) then 0.0 else target
  }

  function FillPhase<S>(r: Run<S>, z: Settings, strategy: Strategy<S>, target: real, bar: Bar, next: Bar): Run<S>
    requires z.costs.notional > 0.0 && BookOk(r.book) && PricesOk(next) && (forall k :: k in z.closes ==> z.closes[k] > 0.0)
  {
    if target == r.book.position then r
    else
      var source := FillSource(z, next);
      if source == Unavailable then
        Log(r.(report := r.report.(unavailable := r.report.unavailable + 1)), z.costs, next.openTs, NoFillRow, None, 0.0)
      else
        var counted := r.(report := r.report.(
          atHourlyOpen := r.report.atHourlyOpen + (if source == AtHourlyOpen then 1 else 0),
          atLastTrade := r.report.atLastTrade + (if source == AtLastTrade then 1 else 0)));
        TradeTo(counted, z.costs, strategy, target, FillPrice(z, next), bar.spreadBps, next.openTs, FillRow)
  }

  function DecidePhase<S>(r: Run<S>, z: Settings, strategy: Strategy<S>, history: seq<Bar>, bar: Bar, next: Bar): Run<S>
    requires z.costs.notional > 0.0 && BookOk(r.book) && PricesOk(next) && (forall k :: k in z.closes ==> z.closes[k] > 0.0)
  {
    var (s, wanted) := strategy.target(r.strategy, history);
    FillPhase(r.(strategy := s), z, strategy, Wanted(r.book.position, Routing.Clamp(wanted)), bar, next)
  }

  lemma TradeKeepsBook<S>(r: Run<S>, c: CostModel, strategy: Strategy<S>, target: real, price: real, spreadBps: real, ts: int, kind: Kind)
    requires c.notional > 0.0 && BookOk(r.book) && (price > 0.0 || Reducing(r.book.position, target))
    ensures BookOk(TradeTo(r, c, strategy, target, price, spreadBps, ts, kind).book)
    ensures TradeTo(r, c, strategy, target, price, spreadBps, ts, kind).book.position == target
  {
    hide Units, TradeCost, Pnl, ClosingValue, OpeningValue, Equity;
    if target != 0.0 && target != r.book.position && !Reducing(r.book.position, target) {
      AveragePositive(r.book.position, r.book.entry, target - r.book.position, price, target);
    }
  }

  lemma AveragePositive(position: real, entry: real, delta: real, price: real, target: real)
    requires target != 0.0 && delta != 0.0 && price > 0.0 && (position != 0.0 ==> entry > 0.0)
    ensures AverageCost(position, entry, delta, price, target) > 0.0
  {
    var x, y := Abs(position) * entry, Abs(delta) * price;
    assert y > 0.0;
    if position == 0.0 { assert x == 0.0; } else { assert x > 0.0; }
    Positive(x + y, Abs(target));
  }

  lemma Positive(x: real, y: real)
    requires x > 0.0 && y > 0.0
    ensures x / y > 0.0
  {
  }

  /** Phases 1 and 2, common to every bar. */
  function Opening<S>(r: Run<S>, z: Settings, strategy: Strategy<S>, bar: Bar): (r2: Run<S>)
    requires z.costs.notional > 0.0 && BookOk(r.book)
    ensures BookOk(r2.book)
  {
    var r1 := StopPhase(r, z, strategy, bar);
    if StopHit(r.book, bar) then
      TradeKeepsBook(r, z.costs, strategy, 0.0, StopPrice(r.book.position > 0.0, r.book.entry), bar.spreadBps, bar.openTs, StopRow);
      FundingPhase(r1, z, bar)
    else FundingPhase(r1, z, bar)
  }

  lemma GuardKeepsBook<S>(r: Run<S>, z: Settings, strategy: Strategy<S>, bar: Bar, next: Bar)
    requires z.costs.notional > 0.0 && BookOk(r.book) && PricesOk(bar)
    ensures BookOk(GuardPhase(r, z, strategy, bar, next).book)
  {
    if r.book.position != 0.0 && bar.close.Some? {
      TradeKeepsBook(r, z.costs, strategy, 0.0, bar.close.value, bar.spreadBps, next.openTs, GuardRow);
    }
    hide TradeTo, GuardExit;
  }

  /** One iteration of the event loop, at bar t. */
  function StepBar<S>(r: Run<S>, z: Settings, strategy: Strategy<S>, bars: seq<Bar>, t: nat): Run<S>
    requires InputsOk(z, bars) && t + 1 < |bars| && BookOk(r.book)
  {
    var bar, next := bars[t], bars[t + 1];
    var r1 := Opening(r, z, strategy, bar);
    if Gap(bar, next) then Mark(GapPhase(r1, z, strategy, bar, next), z.costs, next.openTs, next.close)
    else
      GuardKeepsBook(r1, z, strategy, bar, next);
      var r2 := GuardPhase(r1, z, strategy, bar, next);
      Mark(DecidePhase(r2, z, strategy, bars[..t + 1], bar, next), z.costs, next.openTs, next.close)
  }
}
