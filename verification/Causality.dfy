/** No backtest result depends on later data, and a held position always sees a price. */
module Causality {
  import opened Types
  import opened Guards
  import opened Harness
  import opened Backtest
  import Routing

  // ----- a held position always sees a price -----

  lemma OpeningPosition<S>(r: Run<S>, z: Settings, strategy: Strategy<S>, bar: Bar)
    requires z.costs.notional > 0.0 && BookOk(r.book)
    ensures Opening(r, z, strategy, bar).book.position in {0.0, r.book.position}
  {
    hide TradeTo, FundingPaid, Equity, StopPrice;
    if StopHit(r.book, bar) {
      TradeKeepsBook(r, z.costs, strategy, 0.0, StopPrice(r.book.position > 0.0, r.book.entry), bar.spreadBps, bar.openTs, StopRow);
    }
  }

  lemma GapFlattens<S>(r: Run<S>, z: Settings, strategy: Strategy<S>, bar: Bar, next: Bar)
    requires z.costs.notional > 0.0 && BookOk(r.book) && PricesOk(bar) && (r.book.position != 0.0 ==> bar.close.Some?)
    ensures GapPhase(r, z, strategy, bar, next).book.position == 0.0
  {
    hide TradeTo;
    if r.book.position != 0.0 {
      TradeKeepsBook(r, z.costs, strategy, 0.0, bar.close.value, bar.spreadBps, next.openTs, GapRow);
    }
  }

  lemma MarkPosition<S>(r: Run<S>, c: CostModel, ts: int, price: Option<real>)
    requires c.notional != 0.0
    ensures Mark(r, c, ts, price).book == r.book
  {
  }

  /** Whenever the loop reaches a bar with a position, that bar has a close. */
  lemma {:induction false} HeldSeesPrices<S>(z: Settings, strategy: Strategy<S>, s: S, bars: seq<Bar>, warmup: nat, t: nat)
    requires InputsOk(z, bars) && warmup <= t < |bars|
    ensures At(z, strategy, s, bars, warmup, t).book.position != 0.0 ==> bars[t].close.Some?
    decreases t
  {
    hide Opening, GapPhase, GuardPhase, DecidePhase, Mark;
    if t > warmup {
      HeldSeesPrices(z, strategy, s, bars, warmup, t - 1);
      var r := At(z, strategy, s, bars, warmup, t - 1);
      var bar, next := bars[t - 1], bars[t];
      var r1 := Opening(r, z, strategy, bar);
      OpeningPosition(r, z, strategy, bar);
      if Gap(bar, next) {
        GapFlattens(r1, z, strategy, bar, next);
        MarkPosition(GapPhase(r1, z, strategy, bar, next), z.costs, next.openTs, next.close);
      }
    }
  }

  // ----- later minute closes do not matter -----

  predicate Sorted(keys: seq<int>) {
    forall a, b :: 0 <= a < b < |keys| ==> keys[a] < keys[b]
  }

  /** The settings with every minute close after `last` removed. */
  function Upto(z: Settings, last: int): Settings {
    z.(closes := map k | k in z.closes && k <= last :: z.closes[k], keys := z.keys[..BisectRight(z.keys, last)])
  }

  lemma {:induction false} BisectSplits(keys: seq<int>, at: int)
    requires Sorted(keys)
    ensures var i := BisectRight(keys, at);
      (forall k :: 0 <= k < i ==> keys[k] <= at) && (forall k :: i <= k < |keys| ==> keys[k] > at)
  {
    if keys != [] && keys[|keys| - 1] > at { BisectSplits(keys[..|keys| - 1], at); }
  }

  lemma {:induction false} BisectPrefix(keys: seq<int>, last: int, at: int)
    requires at <= last
    ensures BisectRight(keys[..BisectRight(keys, last)], at) == BisectRight(keys, at) <= BisectRight(keys, last)
  {
    if keys == [] {
    } else if keys[|keys| - 1] <= last {
      assert keys[..|keys|] == keys;
    } else {
      var init := keys[..|keys| - 1];
      BisectPrefix(init, last, at);
      assert keys[..BisectRight(init, last)] == init[..BisectRight(init, last)];
    }
  }

  /** A fill at or before `last` is priced the same. */
  lemma FillUpto(z: Settings, last: int, next: Bar)
    requires Sorted(z.keys) && FloorMinute(next.openTs + z.latency) <= last
    ensures FillSource(Upto(z, last), next) == FillSource(z, next)
    ensures FillSource(z, next) != Unavailable ==> FillPrice(Upto(z, last), next) == FillPrice(z, next)
  {
    hide FloorMinute, BisectRight;
    var minute := FloorMinute(next.openTs + z.latency);
    BisectPrefix(z.keys, last, minute);
    BisectSplits(z.keys, minute);
  }

  lemma DecideUpto<S>(r: Run<S>, z: Settings, last: int, strategy: Strategy<S>, history: seq<Bar>, bar: Bar, next: Bar)
    requires z.costs.notional > 0.0 && BookOk(r.book) && PricesOk(next) && (forall k :: k in z.closes ==> z.closes[k] > 0.0)
    requires Sorted(z.keys) && FloorMinute(next.openTs + z.latency) <= last
    ensures DecidePhase(r, Upto(z, last), strategy, history, bar, next) == DecidePhase(r, z, strategy, history, bar, next)
  {
    hide TradeTo, FillSource, FillPrice, Log, FloorMinute, BisectRight, Wanted, Routing.Clamp;
    FillUpto(z, last, next);
    SourcePriced(z, next);
  }

  lemma UptoOk(z: Settings, last: int, bars: seq<Bar>, n: nat)
    requires InputsOk(z, bars) && Sorted(z.keys) && n <= |bars|
    ensures InputsOk(Upto(z, last), bars[..n]) && Upto(z, last).costs == z.costs
  {
    hide BisectRight, PricesOk;
    BisectSplits(z.keys, last);
  }

  /** Phases that look at no fill price do not see the minute closes at all. */
  lemma OtherPhasesUpto<S>(r: Run<S>, z: Settings, last: int, strategy: Strategy<S>, bar: Bar, next: Bar)
    requires z.costs.notional > 0.0 && BookOk(r.book) && PricesOk(bar)
    ensures Opening(r, Upto(z, last), strategy, bar) == Opening(r, z, strategy, bar)
    ensures GapPhase(r, Upto(z, last), strategy, bar, next) == GapPhase(r, z, strategy, bar, next)
    ensures GuardPhase(r, Upto(z, last), strategy, bar, next) == GuardPhase(r, z, strategy, bar, next)
  {
    hide TradeTo, Log, GuardExit, FundingPaid, BisectRight, StopPrice;
  }

  /** One iteration sees its own bar, the next one, and no minute close after the fill minute. */
  lemma StepUpto<S>(r: Run<S>, z: Settings, last: int, strategy: Strategy<S>, bars: seq<Bar>, n: nat, t: nat)
    requires InputsOk(z, bars) && Sorted(z.keys) && t + 1 < n <= |bars| && BookOk(r.book)
    requires FloorMinute(bars[t + 1].openTs + z.latency) <= last
    requires InputsOk(Upto(z, last), bars[..n]) && Upto(z, last).costs == z.costs
    ensures StepBar(r, Upto(z, last), strategy, bars[..n], t) == StepBar(r, z, strategy, bars, t)
  {
    hide Opening, GapPhase, GuardPhase, DecidePhase, Mark, Upto, FloorMinute, Sorted, BookOk;
    var bar, next := bars[t], bars[t + 1];
    var cut := bars[..n];
    assert cut[..t + 1] == bars[..t + 1];
    OtherPhasesUpto(r, z, last, strategy, bar, next);
    var r1 := Opening(r, z, strategy, bar);
    OtherPhasesUpto(r1, z, last, strategy, bar, next);
    GuardKeepsBook(r1, z, strategy, bar, next);
    DecideUpto(GuardPhase(r1, z, strategy, bar, next), z, last, strategy, bars[..t + 1], bar, next);
  }

  predicate IncreasingTimes(bars: seq<Bar>) {
    forall a, b :: 0 <= a < b < |bars| ==> bars[a].openTs < bars[b].openTs
  }

  lemma FloorMinuteMono(a: int, b: int)
    requires a <= b
    ensures FloorMinute(a) <= FloorMinute(b)
  {
  }

  /** The fill minute of the last decision a prefix of n bars can take. */
  function LastFillMinute(z: Settings, bars: seq<Bar>, n: nat): int
    requires 0 < n <= |bars|
  {
    FloorMinute(bars[n - 1].openTs + z.latency)
  }

  lemma {:induction false} AtUpto<S>(z: Settings, strategy: Strategy<S>, s: S, bars: seq<Bar>, warmup: nat, n: nat, t: nat)
    requires InputsOk(z, bars) && Sorted(z.keys) && IncreasingTimes(bars)
    requires warmup <= t && 0 < n <= |bars| && (t > warmup ==> t < n)
    requires InputsOk(Upto(z, LastFillMinute(z, bars, n)), bars[..n])
    ensures At(Upto(z, LastFillMinute(z, bars, n)), strategy, s, bars[..n], warmup, t) == At(z, strategy, s, bars, warmup, t)
    decreases t
  {
    hide StepBar, Upto, Sorted, BookOk;
    var last := LastFillMinute(z, bars, n);
    if t > warmup {
      AtUpto(z, strategy, s, bars, warmup, n, t - 1);
      UptoCosts(z, last);
      FloorMinuteMono(bars[t].openTs + z.latency, bars[n - 1].openTs + z.latency);
      StepUpto(At(z, strategy, s, bars, warmup, t - 1), z, last, strategy, bars, n, t - 1);
    }
  }

  lemma UptoCosts(z: Settings, last: int)
    ensures Upto(z, last).costs == z.costs
  {
  }

  // ----- results only grow -----

  /** The lists of a report are prefixes of those of a later one. */
  ghost predicate PrefixOf(a: Report, b: Report) {
    && a.ledger <= b.ledger && a.equity <= b.equity && a.gains <= b.gains
    && a.tradePnls <= b.tradePnls && a.fillNotionals <= b.fillNotionals && a.trades <= b.trades
    && a.unavailable <= b.unavailable && a.atHourlyOpen <= b.atHourlyOpen && a.atLastTrade <= b.atLastTrade
  }

  lemma TradeGrows<S>(r: Run<S>, c: CostModel, strategy: Strategy<S>, target: real, price: real, spreadBps: real, ts: int, kind: Kind)
    requires c.notional > 0.0 && BookOk(r.book) && (price > 0.0 || Reducing(r.book.position, target))
    ensures PrefixOf(r.report, TradeTo(r, c, strategy, target, price, spreadBps, ts, kind).report)
  {
    hide LegOf, TradeCost, Equity;
  }

  lemma PhasesGrow<S>(r: Run<S>, z: Settings, strategy: Strategy<S>, history: seq<Bar>, bar: Bar, next: Bar)
    requires z.costs.notional > 0.0 && BookOk(r.book) && PricesOk(bar) && PricesOk(next)
    requires forall k :: k in z.closes ==> z.closes[k] > 0.0
    ensures PrefixOf(r.report, GapPhase(r, z, strategy, bar, next).report)
    ensures PrefixOf(r.report, GuardPhase(r, z, strategy, bar, next).report)
    ensures PrefixOf(r.report, StopPhase(r, z, strategy, bar).report)
  {
    hide TradeTo, GuardExit, StopPrice, PrefixOf;
    PrefixRefl(r.report);
    if r.book.position != 0.0 && bar.close.Some? {
      TradeGrows(r, z.costs, strategy, 0.0, bar.close.value, bar.spreadBps, next.openTs, GapRow);
      TradeGrows(r, z.costs, strategy, 0.0, bar.close.value, bar.spreadBps, next.openTs, GuardRow);
    }
    if StopHit(r.book, bar) {
      TradeGrows(r, z.costs, strategy, 0.0, StopPrice(r.book.position > 0.0, r.book.entry), bar.spreadBps, bar.openTs, StopRow);
    }
  }

  lemma PrefixRefl(a: Report)
    ensures PrefixOf(a, a)
  {
  }

  lemma PrefixTrans(a: Report, b: Report, c: Report)
    requires PrefixOf(a, b) && PrefixOf(b, c)
    ensures PrefixOf(a, c)
  {
  }

  lemma FillGrows<S>(r: Run<S>, z: Settings, strategy: Strategy<S>, target: real, bar: Bar, next: Bar)
    requires z.costs.notional > 0.0 && BookOk(r.book) && PricesOk(next) && (forall k :: k in z.closes ==> z.closes[k] > 0.0)
    ensures PrefixOf(r.report, FillPhase(r, z, strategy, target, bar, next).report)
  {
    hide TradeTo, FillSource, FillPrice, Equity;
    SourcePriced(z, next);
    var source := FillSource(z, next);
    if target != r.book.position && source != Unavailable {
      var counted := r.(report := r.report.(
        atHourlyOpen := r.report.atHourlyOpen + (if source == AtHourlyOpen then 1 else 0),
        atLastTrade := r.report.atLastTrade + (if source == AtLastTrade then 1 else 0)));
      TradeGrows(counted, z.costs, strategy, target, FillPrice(z, next), bar.spreadBps, next.openTs, FillRow);
    }
  }

  lemma WritersGrow<S>(r: Run<S>, z: Settings, bar: Bar, ts: int, price: Option<real>)
    requires z.costs.notional > 0.0 && BookOk(r.book)
    ensures PrefixOf(r.report, FundingPhase(r, z, bar).report)
    ensures PrefixOf(r.report, Mark(r, z.costs, ts, price).report)
  {
    hide FundingPaid, Equity;
  }

  lemma StepGrows<S>(r: Run<S>, z: Settings, strategy: Strategy<S>, bars: seq<Bar>, t: nat)
    requires InputsOk(z, bars) && t + 1 < |bars| && BookOk(r.book)
    ensures PrefixOf(r.report, StepBar(r, z, strategy, bars, t).report)
  {
    hide StopPhase, FundingPhase, GapPhase, GuardPhase, FillPhase, Mark, PrefixOf, Wanted, Routing.Clamp, BookOk;
    var bar, next := bars[t], bars[t + 1];
    PhasesGrow(r, z, strategy, bars[..t + 1], bar, next);
    var r0 := StopPhase(r, z, strategy, bar);
    StopKeepsBook(r, z, strategy, bar);
    WritersGrow(r0, z, bar, next.openTs, next.close);
    var r1 := Opening(r, z, strategy, bar);
    PrefixTrans(r.report, r0.report, r1.report);
    PhasesGrow(r1, z, strategy, bars[..t + 1], bar, next);
    PhasesKeepBook(r1, z, strategy, bars[..t + 1], bar, next);
    var gap := GapPhase(r1, z, strategy, bar, next);
    WritersGrow(gap, z, bar, next.openTs, next.close);
    PrefixTrans(r.report, r1.report, gap.report);
    PrefixTrans(r.report, gap.report, Mark(gap, z.costs, next.openTs, next.close).report);
    GuardKeepsBook(r1, z, strategy, bar, next);
    var r2 := GuardPhase(r1, z, strategy, bar, next);
    PrefixTrans(r.report, r1.report, r2.report);
    PhasesKeepBook(r2, z, strategy, bars[..t + 1], bar, next);
    var (s, wanted) := strategy.target(r2.strategy, bars[..t + 1]);
    FillGrows(r2.(strategy := s), z, strategy, Wanted(r2.book.position, Routing.Clamp(wanted)), bar, next);
    var r3 := DecidePhase(r2, z, strategy, bars[..t + 1], bar, next);
    PrefixTrans(r.report, r2.report, r3.report);
    WritersGrow(r3, z, bar, next.openTs, next.close);
    PrefixTrans(r.report, r3.report, Mark(r3, z.costs, next.openTs, next.close).report);
  }

  lemma StopKeepsBook<S>(r: Run<S>, z: Settings, strategy: Strategy<S>, bar: Bar)
    requires z.costs.notional > 0.0 && BookOk(r.book)
    ensures BookOk(StopPhase(r, z, strategy, bar).book)
  {
    hide TradeTo, StopPrice, BookOk;
    if StopHit(r.book, bar) {
      TradeKeepsBook(r, z.costs, strategy, 0.0, StopPrice(r.book.position > 0.0, r.book.entry), bar.spreadBps, bar.openTs, StopRow);
    }
  }

  lemma {:induction false} AtGrows<S>(z: Settings, strategy: Strategy<S>, s: S, bars: seq<Bar>, warmup: nat, t: nat, u: nat)
    requires InputsOk(z, bars) && warmup <= t <= u && (u > warmup ==> u < |bars|)
    ensures PrefixOf(At(z, strategy, s, bars, warmup, t).report, At(z, strategy, s, bars, warmup, u).report)
    decreases u
  {
    hide StepBar, PrefixOf, BookOk, InputsOk;
    if t == u {
      PrefixRefl(At(z, strategy, s, bars, warmup, t).report);
    } else {
      AtGrows(z, strategy, s, bars, warmup, t, u - 1);
      StepGrows(At(z, strategy, s, bars, warmup, u - 1), z, strategy, bars, u - 1);
      PrefixTrans(At(z, strategy, s, bars, warmup, t).report, At(z, strategy, s, bars, warmup, u - 1).report,
                  At(z, strategy, s, bars, warmup, u).report);
    }
  }

  /** Causality. With increasing bar times, backtesting the first n bars with every minute close after the last
      bar's fill minute removed gives a ledger, an equity curve and trade lists that are prefixes of the full
      run's: no result depends on later data. */
  lemma PrefixRunsArePrefixes<S>(z: Settings, strategy: Strategy<S>, s: S, bars: seq<Bar>, warmup: nat, n: nat)
    requires InputsOk(z, bars) && Sorted(z.keys) && IncreasingTimes(bars) && 0 < n <= |bars|
    ensures var cut := Upto(z, LastFillMinute(z, bars, n));
      && InputsOk(cut, bars[..n])
      && PrefixOf(RunBacktest(cut, strategy, s, bars[..n], warmup).report, RunBacktest(z, strategy, s, bars, warmup).report)
  {
    hide At, Upto, PrefixOf, Sorted, IncreasingTimes;
    var last := LastFillMinute(z, bars, n);
    UptoOk(z, last, bars, n);
    var t := LastBar(bars[..n], warmup);
    AtUpto(z, strategy, s, bars, warmup, n, t);
    AtGrows(z, strategy, s, bars, warmup, t, LastBar(bars, warmup));
  }
}
