/** Whole backtests: the loop, the ledger law, and causality. */
module Backtest {
  import opened Types
  import opened Guards
  import opened Harness
  import Routing

  // ----- the loop -----

  lemma PhasesKeepBook<S>(r: Run<S>, z: Settings, strategy: Strategy<S>, history: seq<Bar>, bar: Bar, next: Bar)
    requires z.costs.notional > 0.0 && BookOk(r.book) && PricesOk(bar) && PricesOk(next)
    requires forall k :: k in z.closes ==> z.closes[k] > 0.0
    ensures BookOk(GapPhase(r, z, strategy, bar, next).book)
    ensures BookOk(DecidePhase(r, z, strategy, history, bar, next).book)
  {
    hide TradeTo, Routing.Clamp, FillSource, FillPrice, Wanted;
    if r.book.position != 0.0 && bar.close.Some? {
      TradeKeepsBook(r, z.costs, strategy, 0.0, bar.close.value, bar.spreadBps, next.openTs, GapRow);
    }
    var (s, wanted) := strategy.target(r.strategy, history);
    FillKeepsBook(r.(strategy := s), z, strategy, Wanted(r.book.position, Routing.Clamp(wanted)), bar, next);
  }

  lemma SourcePriced(z: Settings, next: Bar)
    requires PricesOk(next) && (forall k :: k in z.closes ==> z.closes[k] > 0.0)
    ensures FillSource(z, next) != Unavailable ==> FillPrice(z, next) > 0.0
  {
    hide FloorMinute, BisectRight;
    var minute := FloorMinute(next.openTs + z.latency);
    match FillSource(z, next)
    case AtMinute => assert minute in z.closes;
    case AtLastTrade =>
      var k := LastTrade(z, minute).value;
      assert k in z.closes && FillPrice(z, next) == z.closes[k];
    case AtHourlyOpen => assert next.open.Some?;
    case Unavailable =>
  }

  lemma FillKeepsBook<S>(r: Run<S>, z: Settings, strategy: Strategy<S>, target: real, bar: Bar, next: Bar)
    requires z.costs.notional > 0.0 && BookOk(r.book) && PricesOk(next) && (forall k :: k in z.closes ==> z.closes[k] > 0.0)
    ensures BookOk(FillPhase(r, z, strategy, target, bar, next).book)
    ensures FillPhase(r, z, strategy, target, bar, next).book.position in {target, r.book.position}
  {
    hide TradeTo, FillSource, FillPrice, Equity;
    SourcePriced(z, next);
    var source := FillSource(z, next);
    if target != r.book.position && source != Unavailable {
      var counted := r.(report := r.report.(
        atHourlyOpen := r.report.atHourlyOpen + (if source == AtHourlyOpen then 1 else 0),
        atLastTrade := r.report.atLastTrade + (if source == AtLastTrade then 1 else 0)));
      TradeKeepsBook(counted, z.costs, strategy, target, FillPrice(z, next), bar.spreadBps, next.openTs, FillRow);
    }
  }

  lemma StepKeepsBook<S>(r: Run<S>, z: Settings, strategy: Strategy<S>, bars: seq<Bar>, t: nat)
    requires InputsOk(z, bars) && t + 1 < |bars| && BookOk(r.book)
    ensures BookOk(StepBar(r, z, strategy, bars, t).book)
  {
    hide Opening, GapPhase, GuardPhase, DecidePhase, Equity, BookOk;
    var bar, next := bars[t], bars[t + 1];
    var r1 := Opening(r, z, strategy, bar);
    GuardKeepsBook(r1, z, strategy, bar, next);
    PhasesKeepBook(r1, z, strategy, bars[..t + 1], bar, next);
    PhasesKeepBook(GuardPhase(r1, z, strategy, bar, next), z, strategy, bars[..t + 1], bar, next);
  }

  /** The run when the loop reaches bar t, having started at bar `warmup`. */
  function At<S>(z: Settings, strategy: Strategy<S>, s: S, bars: seq<Bar>, warmup: nat, t: nat): (r: Run<S>)
    requires InputsOk(z, bars) && warmup <= t && (t > warmup ==> t < |bars|)
    ensures BookOk(r.book)
    decreases t
  {
    if t == warmup then Start(s)
    else
      var before := At(z, strategy, s, bars, warmup, t - 1);
      StepKeepsBook(before, z, strategy, bars, t - 1);
      StepBar(before, z, strategy, bars, t - 1)
  }

  function LastBar(bars: seq<Bar>, warmup: nat): nat {
    if |bars| > warmup + 1 then |bars| - 1 else warmup
  }

  function RunBacktest<S>(z: Settings, strategy: Strategy<S>, s: S, bars: seq<Bar>, warmup: nat): Run<S>
    requires InputsOk(z, bars)
  {
    At(z, strategy, s, bars, warmup, LastBar(bars, warmup))
  }

  // ----- the ledger law -----

  function Total(xs: seq<real>): real {
    if xs == [] then 0.0 else Total(xs[..|xs| - 1]) + xs[|xs| - 1]
  }

  function Deltas(rows: seq<LedgerRow>): real {
    if rows == [] then 0.0 else Deltas(rows[..|rows| - 1]) + rows[|rows| - 1].cashDelta
  }

  lemma TotalAdds(xs: seq<real>, x: real)
    ensures Total(xs + [x]) == Total(xs) + x
  {
    assert (xs + [x])[..|xs|] == xs;
  }

  lemma DeltasAdd(rows: seq<LedgerRow>, row: LedgerRow)
    ensures Deltas(rows + [row]) == Deltas(rows) + row.cashDelta
  {
    assert (rows + [row])[..|rows|] == rows;
  }

  /** Long and short never meet without flat between them. */
  predicate Opposite(x: real, y: real) {
    (x > 0.0 && y < 0.0) || (x < 0.0 && y > 0.0)
  }

  function LastPosition(rows: seq<LedgerRow>): real {
    if rows == [] then 0.0 else rows[|rows| - 1].position
  }

  /** Cash is the trade profits plus the ledger's cash deltas. */
  ghost predicate CashLaw<S>(r: Run<S>) {
    r.book.cash == Total(r.report.tradePnls) + Deltas(r.report.ledger)
  }

  ghost predicate SignLaw<S>(r: Run<S>) {
    && LastPosition(r.report.ledger) == r.book.position
    && forall k :: 0 < k < |r.report.ledger| ==> !Opposite(r.report.ledger[k - 1].position, r.report.ledger[k].position)
  }

  /** The gains telescope to the last marked equity. */
  ghost predicate GainLaw<S>(r: Run<S>, notional: real) {
    && Scaled(Total(r.report.gains), notional) == r.lastEquity
    && r.lastEquity == (if r.report.equity == [] then 0.0 else r.report.equity[|r.report.equity| - 1].1)
  }

  function Scaled(x: real, notional: real): real { x * notional }

  ghost predicate Lawful<S>(r: Run<S>, notional: real) {
    CashLaw(r) && SignLaw(r) && GainLaw(r, notional)
  }

  /** A row is appended: cash moved by its delta, the position it shows is the book's. */
  lemma LogLawful<S>(r: Run<S>, r0: Run<S>, c: CostModel, ts: int, kind: Kind, price: Option<real>, delta: real)
    requires Lawful(r0, c.notional)
    requires r.report.ledger == r0.report.ledger && r.report.equity == r0.report.equity && r.report.gains == r0.report.gains
    requires r.lastEquity == r0.lastEquity
    requires r.book.cash == Total(r.report.tradePnls) + Deltas(r0.report.ledger) + delta
    requires !Opposite(r0.book.position, r.book.position)
    ensures Lawful(Log(r, c, ts, kind, price, delta), c.notional)
  {
    hide Equity, Scaled, Total;
    var row := LedgerRow(ts, kind, r.book.position, price, delta, Equity(r.book, c.notional, price));
    DeltasAdd(r.report.ledger, row);
  }

  lemma TradeLawful<S>(r: Run<S>, c: CostModel, strategy: Strategy<S>, target: real, price: real, spreadBps: real, ts: int, kind: Kind)
    requires c.notional > 0.0 && BookOk(r.book) && (price > 0.0 || Reducing(r.book.position, target))
    requires Lawful(r, c.notional) && !Opposite(r.book.position, target)
    ensures Lawful(TradeTo(r, c, strategy, target, price, spreadBps, ts, kind), c.notional)
  {
    hide LegOf, TradeCost, Total, Deltas, Opposite, Log, GainLaw, SignLaw;
    if target != r.book.position {
      var leg := LegOf(r.book, c.notional, target, price);
      var cost := TradeCost(c, leg.value, spreadBps);
      var realised := if leg.realised.Some? then leg.realised.value else 0.0;
      TotalAdds(r.report.tradePnls, realised);
      var book := HBook(r.book.cash + realised - cost, target, leg.entry, if target == 0.0 then 0.0 else r.book.funding);
      var report := r.report.(
        tradePnls := if leg.realised.Some? then r.report.tradePnls + [realised] else r.report.tradePnls,
        fillNotionals := r.report.fillNotionals + [leg.value],
        trades := r.report.trades + [TradeRow(ts, if target - r.book.position > 0.0 then Buy else Sell, leg.quantity)]);
      var r1 := r.(book := book, report := report);
      LogLawful(r1, r, c, ts, kind, Some(price), -cost);
      StrategyLawful(Log(r1, c, ts, kind, Some(price), -cost), strategy, c.notional);
    }
  }

  lemma StrategyLawful<S>(r: Run<S>, strategy: Strategy<S>, notional: real)
    requires Lawful(r, notional)
    ensures Lawful(r.(strategy := strategy.flattened(r.strategy)), notional)
    ensures forall s: S :: Lawful(r.(strategy := s), notional)
  {
    hide Total, Deltas, Opposite, Scaled, LastPosition;
  }

  lemma MarkLawful<S>(r: Run<S>, c: CostModel, ts: int, price: Option<real>)
    requires c.notional > 0.0 && Lawful(r, c.notional)
    ensures Lawful(Mark(r, c, ts, price), c.notional)
  {
    hide Equity, Deltas, Scaled;
    var eq := Equity(r.book, c.notional, price);
    var g := (eq - r.lastEquity) / c.notional;
    TotalAdds(r.report.gains, g);
    GainAdds(Total(r.report.gains), g, c.notional, eq, r.lastEquity);
    var r1 := r.(report := r.report.(equity := r.report.equity + [(ts, eq)], gains := r.report.gains + [g]), lastEquity := eq);
    DeltasAdd(r.report.ledger, LedgerRow(ts, MarkRow, r.book.position, price, 0.0, Equity(r1.book, c.notional, price)));
  }

  lemma GainAdds(total: real, g: real, notional: real, eq: real, last: real)
    requires notional > 0.0 && g == (eq - last) / notional && Scaled(total, notional) == last
    ensures Scaled(total + g, notional) == eq
  {
    assert g * notional == eq - last;
  }

  lemma FundingLawful<S>(r: Run<S>, z: Settings, bar: Bar)
    requires BookOk(r.book) && Lawful(r, z.costs.notional)
    ensures Lawful(FundingPhase(r, z, bar), z.costs.notional)
  {
    hide FundingPaid, Log, Total, Deltas, GainLaw, SignLaw;
    if r.book.position != 0.0 && bar.fundingRate.Some? && bar.close.Some? {
      var paid := FundingPaid(r.book, z.costs.notional, bar.close.value, bar.fundingRate.value);
      LogLawful(r.(book := r.book.(cash := r.book.cash + paid, funding := r.book.funding + paid)), r, z.costs, bar.openTs,
                FundingRow, bar.close, paid);
    }
  }

  lemma OpeningLawful<S>(r: Run<S>, z: Settings, strategy: Strategy<S>, bar: Bar)
    requires z.costs.notional > 0.0 && BookOk(r.book) && Lawful(r, z.costs.notional)
    ensures Lawful(Opening(r, z, strategy, bar), z.costs.notional)
  {
    hide Lawful, TradeTo, FundingPhase, StopPrice;
    if StopHit(r.book, bar) {
      var trigger := StopPrice(r.book.position > 0.0, r.book.entry);
      TradeLawful(r, z.costs, strategy, 0.0, trigger, bar.spreadBps, bar.openTs, StopRow);
      TradeKeepsBook(r, z.costs, strategy, 0.0, trigger, bar.spreadBps, bar.openTs, StopRow);
    }
    FundingLawful(StopPhase(r, z, strategy, bar), z, bar);
  }

  lemma ClosingLawful<S>(r: Run<S>, z: Settings, strategy: Strategy<S>, bar: Bar, next: Bar)
    requires z.costs.notional > 0.0 && BookOk(r.book) && PricesOk(bar) && Lawful(r, z.costs.notional)
    ensures Lawful(GapPhase(r, z, strategy, bar, next), z.costs.notional)
    ensures Lawful(GuardPhase(r, z, strategy, bar, next), z.costs.notional)
  {
    hide Lawful, TradeTo, GuardExit;
    if r.book.position != 0.0 && bar.close.Some? {
      TradeLawful(r, z.costs, strategy, 0.0, bar.close.value, bar.spreadBps, next.openTs, GapRow);
      TradeLawful(r, z.costs, strategy, 0.0, bar.close.value, bar.spreadBps, next.openTs, GuardRow);
    }
  }

  lemma FillLawful<S>(r: Run<S>, z: Settings, strategy: Strategy<S>, target: real, bar: Bar, next: Bar)
    requires z.costs.notional > 0.0 && BookOk(r.book) && PricesOk(next) && (forall k :: k in z.closes ==> z.closes[k] > 0.0)
    requires Lawful(r, z.costs.notional) && !Opposite(r.book.position, target)
    ensures Lawful(FillPhase(r, z, strategy, target, bar, next), z.costs.notional)
  {
    hide TradeTo, FillSource, FillPrice, Total, Deltas, Opposite, Scaled, LastPosition, Log;
    SourcePriced(z, next);
    var source := FillSource(z, next);
    if target != r.book.position {
      if source == Unavailable {
        var r1 := r.(report := r.report.(unavailable := r.report.unavailable + 1));
        SamePosition(r.book.position);
        LogLawful(r1, r, z.costs, next.openTs, NoFillRow, None, 0.0);
      } else {
        var counted := r.(report := r.report.(
          atHourlyOpen := r.report.atHourlyOpen + (if source == AtHourlyOpen then 1 else 0),
          atLastTrade := r.report.atLastTrade + (if source == AtLastTrade then 1 else 0)));
        TradeLawful(counted, z.costs, strategy, target, FillPrice(z, next), bar.spreadBps, next.openTs, FillRow);
      }
    }
  }

  lemma SamePosition(x: real)
    ensures !Opposite(x, x)
  {
  }

  lemma DecideLawful<S>(r: Run<S>, z: Settings, strategy: Strategy<S>, history: seq<Bar>, bar: Bar, next: Bar)
    requires z.costs.notional > 0.0 && BookOk(r.book) && PricesOk(next) && (forall k :: k in z.closes ==> z.closes[k] > 0.0)
    requires Lawful(r, z.costs.notional)
    ensures Lawful(DecidePhase(r, z, strategy, history, bar, next), z.costs.notional)
  {
    hide Lawful, FillPhase, Routing.Clamp;
    var (s, wanted) := strategy.target(r.strategy, history);
    StrategyIrrelevant(r, s, z.costs.notional);
    FillLawful(r.(strategy := s), z, strategy, Wanted(r.book.position, Routing.Clamp(wanted)), bar, next);
  }

  lemma StrategyIrrelevant<S>(r: Run<S>, s: S, notional: real)
    requires Lawful(r, notional)
    ensures Lawful(r.(strategy := s), notional)
  {
    hide Total, Deltas, Opposite, Scaled, LastPosition;
  }

  lemma StepLawful<S>(r: Run<S>, z: Settings, strategy: Strategy<S>, bars: seq<Bar>, t: nat)
    requires InputsOk(z, bars) && t + 1 < |bars| && BookOk(r.book) && Lawful(r, z.costs.notional)
    ensures Lawful(StepBar(r, z, strategy, bars, t), z.costs.notional)
  {
    hide Opening, GapPhase, GuardPhase, DecidePhase, Mark, BookOk, Lawful;
    var bar, next := bars[t], bars[t + 1];
    var r1 := Opening(r, z, strategy, bar);
    OpeningLawful(r, z, strategy, bar);
    ClosingLawful(r1, z, strategy, bar, next);
    if Gap(bar, next) {
      MarkLawful(GapPhase(r1, z, strategy, bar, next), z.costs, next.openTs, next.close);
    } else {
      GuardKeepsBook(r1, z, strategy, bar, next);
      var r2 := GuardPhase(r1, z, strategy, bar, next);
      DecideLawful(r2, z, strategy, bars[..t + 1], bar, next);
      MarkLawful(DecidePhase(r2, z, strategy, bars[..t + 1], bar, next), z.costs, next.openTs, next.close);
    }
  }

  lemma {:induction false} AtLawful<S>(z: Settings, strategy: Strategy<S>, s: S, bars: seq<Bar>, warmup: nat, t: nat)
    requires InputsOk(z, bars) && warmup <= t && (t > warmup ==> t < |bars|)
    ensures Lawful(At(z, strategy, s, bars, warmup, t), z.costs.notional)
    decreases t
  {
    hide Lawful, StepBar, InputsOk, BookOk;
    if t == warmup {
      StartLawful(s, z.costs.notional);
    } else {
      AtLawful(z, strategy, s, bars, warmup, t - 1);
      StepLawful(At(z, strategy, s, bars, warmup, t - 1), z, strategy, bars, t - 1);
    }
  }

  lemma StartLawful<S>(s: S, notional: real)
    ensures Lawful(Start(s), notional)
  {
  }

  /** The ledger law. In every backtest cash is the sum of trade profits plus every ledger cash delta, the gains
      times notional add up to the last point of the equity curve, and no two consecutive ledger rows show
      opposite positions. */
  lemma LedgerLaw<S>(z: Settings, strategy: Strategy<S>, s: S, bars: seq<Bar>, warmup: nat)
    requires InputsOk(z, bars)
    ensures var r := RunBacktest(z, strategy, s, bars, warmup);
      && r.book.cash == Total(r.report.tradePnls) + Deltas(r.report.ledger)
      && Total(r.report.gains) * z.costs.notional == (if r.report.equity == [] then 0.0 else r.report.equity[|r.report.equity| - 1].1)
      && (forall k :: 0 < k < |r.report.ledger| ==> !Opposite(r.report.ledger[k - 1].position, r.report.ledger[k].position))
  {
    hide At, Total, Deltas, Opposite;
    AtLawful(z, strategy, s, bars, warmup, LastBar(bars, warmup));
  }
}
