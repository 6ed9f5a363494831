/** The backtest as an object: one mutable book and growing result lists, driven by one loop over the bars. Proved to
    leave exactly the run the backtest functions describe. */
module BacktestEngine {
  import opened Types
  import opened Guards
  import opened Harness
  import opened Backtest
  import Routing

  class Engine<S> {
    const z: Settings
    const strategy: Strategy<S>
    // the book
    var cash: real
    var position: real
    var entry: real
    var funding: real
    // the results
    var ledger: seq<LedgerRow>
    var equity: seq<(int, real)>
    var gains: seq<real>
    var tradePnls: seq<real>
    var fillNotionals: seq<real>
    var trades: seq<TradeRow>
    var unavailable: nat
    var atHourlyOpen: nat
    var atLastTrade: nat
    var lastEquity: real
    var memory: S

    ghost function Book(): HBook
      reads this
    {
      HBook(cash, position, entry, funding)
    }

    ghost function View(): Run<S>
      reads this
    {
      Run(Book(), Report(ledger, equity, gains, tradePnls, fillNotionals, trades, unavailable, atHourlyOpen, atLastTrade),
          lastEquity, memory)
    }

    ghost predicate Valid()
      reads this
    {
      z.costs.notional > 0.0 && BookOk(Book())
    }

    constructor (z: Settings, strategy: Strategy<S>, memory: S)
      requires z.costs.notional > 0.0
      ensures Valid() && View() == Start(memory) && this.z == z && this.strategy == strategy
    {
      this.z, this.strategy, this.memory := z, strategy, memory;
      cash, position, entry, funding, lastEquity := 0.0, 0.0, 0.0, 0.0, 0.0;
      ledger, equity, gains, tradePnls, fillNotionals, trades := [], [], [], [], [], [];
      unavailable, atHourlyOpen, atLastTrade := 0, 0, 0;
    }

    method EquityAt(price: Option<real>) returns (eq: real)
      requires Valid()
      ensures eq == Equity(Book(), z.costs.notional, price)
    {
      eq := cash;
      if price.Some? && position != 0.0 { eq := eq + Pnl(position, z.costs.notional, entry, price.value); }
    }

    method LogRow(ts: int, kind: Kind, price: Option<real>, cashDelta: real)
      requires Valid()
      modifies this`ledger
      ensures View() == Log(old(View()), z.costs, ts, kind, price, cashDelta)
    {
      hide Equity;
      var eq := EquityAt(price);
      ledger := ledger + [LedgerRow(ts, kind, position, price, cashDelta, eq)];
    }

    method MarkAt(ts: int, price: Option<real>)
      requires Valid()
      modifies this`equity, this`gains, this`lastEquity, this`ledger
      ensures View() == Mark(old(View()), z.costs, ts, price)
    {
      hide Equity;
      var eq := EquityAt(price);
      equity := equity + [(ts, eq)];
      gains := gains + [(eq - lastEquity) / z.costs.notional];
      lastEquity := eq;
      LogRow(ts, MarkRow, price, 0.0);
    }

    /** What moving to `target` at `price` closes or opens: new entry, realised profit, traded value, contracts. */
    method LegTo(target: real, price: real) returns (leg: Leg)
      requires Valid() && (price > 0.0 || Reducing(position, target))
      ensures leg == LegOf(Book(), z.costs.notional, target, price)
    {
      hide Pnl, ClosingValue, OpeningValue, Units, AverageCost;
      var delta, notional := target - position, z.costs.notional;
      var reducing := position != 0.0 && Abs(target) < Abs(position);
      var realised, newEntry := None, 0.0;
      if position != 0.0 && target == 0.0 {
        realised := Some(Pnl(position, notional, entry, price));
      } else if reducing {
        realised := Some(Pnl(ClosedLeg(position, target), notional, entry, price));
        newEntry := entry;
      } else if target != 0.0 {
        newEntry := AverageCost(position, entry, delta, price, target);
      }
      if reducing {
        leg := Leg(newEntry, realised, ClosingValue(delta, notional, price, entry), Units(delta, notional, entry));
      } else {
        leg := Leg(newEntry, realised, OpeningValue(delta, notional), Units(delta, notional, price));
      }
    }

    /** Books a leg: realised profit, cost, position, entry, and the trade's rows. */
    method BookLeg(leg: Leg, target: real, spreadBps: real, ts: int) returns (cost: real)
      requires z.costs.notional > 0.0
      modifies this
      ensures cost == TradeCost(z.costs, leg.value, spreadBps)
      ensures var realised := if leg.realised.Some? then leg.realised.value else 0.0;
        Book() == HBook(old(cash) + realised - cost, target, leg.entry, if target == 0.0 then 0.0 else old(funding))
      ensures View() == old(View()).(book := Book(), report := old(View()).report.(
        tradePnls := if leg.realised.Some? then old(tradePnls) + [leg.realised.value] else old(tradePnls),
        fillNotionals := old(fillNotionals) + [leg.value],
        trades := old(trades) + [TradeRow(ts, if target - old(position) > 0.0 then Buy else Sell, leg.quantity)]))
    {
      hide TradeCost;
      var delta := target - position;
      if leg.realised.Some? {
        cash, tradePnls := cash + leg.realised.value, tradePnls + [leg.realised.value];
      }
      cost := TradeCost(z.costs, leg.value, spreadBps);
      cash, position, entry := cash - cost, target, leg.entry;
      if target == 0.0 { funding := 0.0; }
      fillNotionals := fillNotionals + [leg.value];
      trades := trades + [TradeRow(ts, if delta > 0.0 then Buy else Sell, leg.quantity)];
    }

    /** Moves the book to `target` at `price`: closes, reduces, opens or increases, and writes the trade. */
    method Trade(target: real, price: real, spreadBps: real, ts: int, kind: Kind)
      requires Valid() && (price > 0.0 || Reducing(position, target))
      modifies this
      ensures Valid() && View() == TradeTo(old(View()), z.costs, strategy, target, price, spreadBps, ts, kind)
    {
      hide LegOf, TradeCost, Log;
      TradeKeepsBook(View(), z.costs, strategy, target, price, spreadBps, ts, kind);
      if target - position == 0.0 { return; }
      var leg := LegTo(target, price);
      var cost := BookLeg(leg, target, spreadBps, ts);
      LogTrade(ts, kind, price, cost);
      if target == 0.0 { memory := strategy.flattened(memory); }
    }

    /** The ledger row of a trade just booked. */
    method LogTrade(ts: int, kind: Kind, price: real, cost: real)
      requires z.costs.notional > 0.0
      modifies this`ledger
      ensures View() == Log(old(View()), z.costs, ts, kind, Some(price), -cost)
    {
      hide Pnl;
      var eq := cash;
      if position != 0.0 && entry != 0.0 { eq := eq + Pnl(position, z.costs.notional, entry, price); }
      ledger := ledger + [LedgerRow(ts, kind, position, Some(price), -cost, eq)];
    }

    // ----- one bar -----

    method StopFirst(bar: Bar)
      requires Valid()
      modifies this
      ensures Valid() && View() == StopPhase(old(View()), z, strategy, bar)
    {
      hide TradeTo, StopPrice;
      if position != 0.0 && bar.high.Some? && bar.low.Some? {
        var long := position > 0.0;
        var trigger := StopPrice(long, entry);
        if (if long then bar.low.value <= trigger else bar.high.value >= trigger) {
          Trade(0.0, trigger, bar.spreadBps, bar.openTs, StopRow);
        }
      }
    }

    method PayFunding(bar: Bar)
      requires Valid()
      modifies this
      ensures Valid() && View() == FundingPhase(old(View()), z, bar)
    {
      hide FundingPaid, Equity;
      if position != 0.0 && bar.fundingRate.Some? && bar.close.Some? {
        var paid := FundingPaid(HBook(cash, position, entry, funding), z.costs.notional, bar.close.value, bar.fundingRate.value);
        cash, funding := cash + paid, funding + paid;
        LogRow(bar.openTs, FundingRow, bar.close, paid);
      }
    }

    /** Fills the decision at the fill minute's close, else the last fresh trade, else the next hour's open. */
    method FillTo(target: real, bar: Bar, next: Bar)
      requires Valid() && PricesOk(next) && forall k :: k in z.closes ==> z.closes[k] > 0.0
      modifies this
      ensures Valid() && View() == FillPhase(old(View()), z, strategy, target, bar, next)
    {
      hide TradeTo, LastTrade, FloorMinute, Equity;
      SourcePriced(z, next);
      if target == position { return; }
      var minute := FloorMinute(next.openTs + z.latency);
      var last := LastTrade(z, minute);
      if minute in z.closes {
        Trade(target, z.closes[minute], bar.spreadBps, next.openTs, FillRow);
      } else if last.Some? && last.value in z.closes {
        atLastTrade := atLastTrade + 1;
        Trade(target, z.closes[last.value], bar.spreadBps, next.openTs, FillRow);
      } else if next.open.Some? {
        atHourlyOpen := atHourlyOpen + 1;
        Trade(target, next.open.value, bar.spreadBps, next.openTs, FillRow);
      } else {
        unavailable := unavailable + 1;
        LogRow(next.openTs, NoFillRow, None, 0.0);
      }
    }

    /** One iteration: stop, funding, then the gap rule or the protective exits and the decision, then the mark. */
    method BarStep(bars: seq<Bar>, t: nat)
      requires Valid() && InputsOk(z, bars) && t + 1 < |bars|
      modifies this
      ensures Valid() && View() == StepBar(old(View()), z, strategy, bars, t)
    {
      hide StopPhase, FundingPhase, TradeTo, GuardExit, FillPhase, Equity, Wanted, Mark;
      var bar, next := bars[t], bars[t + 1];
      StopFirst(bar);
      PayFunding(bar);
      if !bar.complete || next.close.None? {
        if position != 0.0 && bar.close.Some? {
          Trade(0.0, bar.close.value, bar.spreadBps, next.openTs, GapRow);
        }
        MarkAt(next.openTs, next.close);
        return;
      }
      ProtectiveExit(bar, next);
      Decide(bars[..t + 1], bar, next);
      MarkAt(next.openTs, next.close);
    }

    method ProtectiveExit(bar: Bar, next: Bar)
      requires Valid() && PricesOk(bar)
      modifies this
      ensures Valid() && View() == GuardPhase(old(View()), z, strategy, bar, next)
    {
      hide TradeTo, GuardExit;
      if position != 0.0 && bar.close.Some? && GuardExit(HBook(cash, position, entry, funding), z.costs.notional, bar.close.value) {
        Trade(0.0, bar.close.value, bar.spreadBps, next.openTs, GuardRow);
      }
    }

    method Decide(history: seq<Bar>, bar: Bar, next: Bar)
      requires Valid() && PricesOk(next) && forall k :: k in z.closes ==> z.closes[k] > 0.0
      modifies this
      ensures Valid() && View() == DecidePhase(old(View()), z, strategy, history, bar, next)
    {
      hide FillPhase, Routing.Clamp;
      var (s, wanted) := strategy.target(memory, history);
      memory := s;
      var target := Routing.Clamp(wanted);
      if position != 0.0 && target != 0.0 && Sign(target) != Sign(position) { target := 0.0; }
      FillTo(target, bar, next);
    }

    /** The whole backtest. */
    method RunAll(bars: seq<Bar>, warmup: nat)
      requires Valid() && InputsOk(z, bars) && View() == Start(memory)
      modifies this
      ensures Valid() && View() == RunBacktest(z, strategy, old(memory), bars, warmup)
    {
      hide StepBar;
      var t := warmup;
      while t < |bars| - 1
        invariant warmup <= t && (t > warmup ==> t < |bars|)
        invariant Valid() && View() == At(z, strategy, old(memory), bars, warmup, t)
      {
        BarStep(bars, t);
        t := t + 1;
      }
    }
  }
}
