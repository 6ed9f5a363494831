/** The backtest's report in plain terms: whoever reads the ledger from the top, row by row, buying and selling contracts
    at the prices it shows, arrives at every number the backtest reports. */
module PlainLedger {
  import opened Types
  import opened Guards
  import opened Harness
  import opened Backtest
  import Routing

  /** What a reader of the ledger keeps: cash, the position and the price it was entered at, the profit of each sale, the
      value of each trade, the marks, and the fills that found no price. */
  datatype Account = Account(
    cash: real, position: real, entry: real, realised: seq<real>, traded: seq<real>, marks: seq<(int, real)>, unfilled: nat)

  const NOTHING := Account(0.0, 0.0, 0.0, [], [], [], 0)

  /** Contracts a fraction of the notional buys at a price, signed like the fraction. */
  function Held(fraction: real, notional: real, price: real): real {
    if price == 0.0 then 0.0 else fraction * notional / price
  }

  /** Profit of contracts sold at so much more than they cost. */
  function Profit(contracts: real, rise: real): real {
    contracts * rise
  }

  /** The entry price after adding to a position, averaged by notional. */
  function Average(position: real, entry: real, bought: real, price: real): real {
    if position + bought == 0.0 then 0.0 else (Abs(position) * entry + Abs(bought) * price) / Abs(position + bought)
  }

  function ValueOf(contracts: real, price: real): real {
    Abs(contracts) * price
  }

  /** One more row read. A position away from zero is bought at the row's price and averaged by notional; one towards
      zero sells its contracts, and their profit is the price difference on each. */
  function Read(p: Account, row: LedgerRow, notional: real): Account {
    var q := p.(cash := p.cash + row.cashDelta,
                marks := if row.kind == MarkRow then p.marks + [(row.ts, row.equity)] else p.marks,
                unfilled := p.unfilled + if row.kind == NoFillRow then 1 else 0);
    if row.position == p.position || row.price.None? then q
    else
      var x, bought := row.price.value, row.position - p.position;
      if p.position == 0.0 then
        q.(position := row.position, entry := x, traded := p.traded + [ValueOf(Held(bought, notional, x), x)])
      else if Abs(row.position) > Abs(p.position) then
        q.(position := row.position, entry := Average(p.position, p.entry, bought, x),
           traded := p.traded + [ValueOf(Held(bought, notional, x), x)])
      else
        var profit := Profit(-Held(bought, notional, p.entry), x - p.entry);
        q.(cash := q.cash + profit, position := row.position, entry := if row.position == 0.0 then 0.0 else p.entry,
           realised := p.realised + [profit], traded := p.traded + [ValueOf(Held(bought, notional, p.entry), x)])
  }

  function ReadAll(rows: seq<LedgerRow>, notional: real): Account {
    if rows == [] then NOTHING else Read(ReadAll(rows[..|rows| - 1], notional), rows[|rows| - 1], notional)
  }

  /** Cash and the contracts held, each worth its price less its entry. */
  function Worth(p: Account, notional: real, price: Option<real>): real {
    p.cash + if price.Some? && p.position != 0.0 then Profit(Held(p.position, notional, p.entry), price.value - p.entry) else 0.0
  }

  /** Every row shows the equity its reader has. */
  ghost predicate Explained(rows: seq<LedgerRow>, notional: real) {
    forall k :: 0 <= k < |rows| ==> rows[k].equity == Worth(ReadAll(rows[..k + 1], notional), notional, rows[k].price)
  }

  /** The run's book and report as its ledger's reader has them. */
  function Told<S>(r: Run<S>): Account {
    Account(r.book.cash, r.book.position, r.book.entry, r.report.tradePnls, r.report.fillNotionals, r.report.equity, r.report.unavailable)
  }

  ghost predicate Plain<S>(r: Run<S>, notional: real) {
    ReadAll(r.report.ledger, notional) == Told(r) && Explained(r.report.ledger, notional) && (r.book.position == 0.0 ==> r.book.entry == 0.0)
  }

  // ----- arithmetic -----

  lemma ProfitIs(position: real, notional: real, entry: real, price: real)
    requires entry > 0.0
    ensures Pnl(position, notional, entry, price) == Profit(Held(position, notional, entry), price - entry)
  {
    var w, g := position * notional, price / entry;
    assert g * entry == price;
    assert w / entry * entry == w;
    assert w / entry * (g * entry) == (w / entry * entry) * g;
  }

  lemma HeldScales(fraction: real, notional: real, price: real)
    requires price > 0.0 && notional > 0.0
    ensures Abs(Held(fraction, notional, price)) == Abs(fraction) * notional / price
    ensures ValueOf(Held(fraction, notional, price), price) == Abs(fraction) * notional
    ensures Held(-fraction, notional, price) == -Held(fraction, notional, price)
  {
    var w := fraction * notional;
    var q := w / price;
    assert q * price == w;
    if fraction >= 0.0 { assert w >= 0.0; Nonneg(w, price); } else { assert -w >= 0.0; Nonneg(-w, price); assert -w / price == -q; }
  }

  lemma Nonneg(x: real, y: real)
    requires x >= 0.0 && y > 0.0
    ensures x / y >= 0.0
  {
  }

  lemma ClosedValue(delta: real, notional: real, price: real, entry: real)
    requires entry > 0.0 && notional > 0.0
    ensures ClosingValue(delta, notional, price, entry) == ValueOf(Held(delta, notional, entry), price)
  {
    HeldScales(delta, notional, entry);
    var w := Abs(delta) * notional;
    assert w / entry * price == w * price / entry;
  }

  // ----- one row -----

  lemma WorthIs<S>(r: Run<S>, notional: real, price: Option<real>)
    requires BookOk(r.book) && notional > 0.0
    ensures Worth(Told(r), notional, price) == Equity(r.book, notional, price)
  {
    hide Pnl, Held, Profit;
    if price.Some? && r.book.position != 0.0 { ProfitIs(r.book.position, notional, r.book.entry, price.value); }
  }

  lemma RowRead<S>(r0: Run<S>, r: Run<S>, row: LedgerRow, notional: real)
    requires Plain(r0, notional) && r.report.ledger == r0.report.ledger + [row]
    requires Read(Told(r0), row, notional) == Told(r) && row.equity == Worth(Told(r), notional, row.price)
    requires r.book.position == 0.0 ==> r.book.entry == 0.0
    ensures Plain(r, notional)
  {
    hide Read, Worth;
    var rows := r.report.ledger;
    assert rows[..|rows| - 1] == r0.report.ledger && rows[..|rows|] == rows;
    forall k | 0 <= k < |rows| ensures rows[k].equity == Worth(ReadAll(rows[..k + 1], notional), notional, rows[k].price) {
      if k < |r0.report.ledger| { assert rows[..k + 1] == r0.report.ledger[..k + 1]; }
    }
  }

  /** What a leg says is what its ledger row's reader does. */
  lemma LegRead(b: HBook, notional: real, target: real, price: real)
    requires notional > 0.0 && BookOk(b) && (price > 0.0 || Reducing(b.position, target))
    requires target != b.position && !Opposite(b.position, target) && (b.position == 0.0 ==> b.entry == 0.0)
    ensures var leg, bought := LegOf(b, notional, target, price), target - b.position;
      if b.position == 0.0 then leg.entry == price && leg.realised == None && leg.value == ValueOf(Held(bought, notional, price), price)
      else if Abs(target) > Abs(b.position) then
        && leg.entry == Average(b.position, b.entry, bought, price)
        && leg.realised == None && leg.value == ValueOf(Held(bought, notional, price), price)
      else
        && leg.entry == (if target == 0.0 then 0.0 else b.entry)
        && leg.realised == Some(Profit(-Held(bought, notional, b.entry), price - b.entry))
        && leg.value == ValueOf(Held(bought, notional, b.entry), price)
  {
    hide Pnl, Held, Units, ClosingValue, Profit, ValueOf, AverageCost;
    var bought := target - b.position;
    if b.position == 0.0 {
      HeldScales(bought, notional, price);
      OpensAt(bought, price);
    } else if Abs(target) > Abs(b.position) {
      HeldScales(bought, notional, price);
      SameAverage(b.position, b.entry, bought, price, target);
    } else {
      HeldScales(bought, notional, b.entry);
      ClosedValue(bought, notional, price, b.entry);
      ProfitIs(-bought, notional, b.entry, price);
      var closed := if target == 0.0 then b.position else ClosedLeg(b.position, target);
      assert closed == -bought;
    }
  }

  lemma OpensAt(delta: real, price: real)
    requires delta != 0.0
    ensures AverageCost(0.0, 0.0, delta, price, delta) == price
  {
    assert Abs(delta) * price / Abs(delta) == price;
  }

  lemma SameAverage(position: real, entry: real, bought: real, price: real, target: real)
    requires target == position + bought && target != 0.0
    ensures AverageCost(position, entry, bought, price, target) == Average(position, entry, bought, price)
  {
  }

  lemma TradePlain<S>(r: Run<S>, c: CostModel, strategy: Strategy<S>, target: real, price: real, spreadBps: real, ts: int, kind: Kind)
    requires c.notional > 0.0 && BookOk(r.book) && (price > 0.0 || Reducing(r.book.position, target))
    requires Plain(r, c.notional) && !Opposite(r.book.position, target) && kind != MarkRow && kind != NoFillRow
    ensures Plain(TradeTo(r, c, strategy, target, price, spreadBps, ts, kind), c.notional)
  {
    hide LegOf, TradeCost, Held, Worth, ReadAll, Explained, Profit, ValueOf, Average;
    if target != r.book.position {
      LegRead(r.book, c.notional, target, price);
      TradeKeepsBook(r, c, strategy, target, price, spreadBps, ts, kind);
      var r2 := TradeTo(r, c, strategy, target, price, spreadBps, ts, kind);
      WorthIs(r2, c.notional, Some(price));
      var leg := LegOf(r.book, c.notional, target, price);
      var row := r2.report.ledger[|r.report.ledger|];
      LegIsRead(Told(r), row, c.notional, leg, TradeCost(c, leg.value, spreadBps));
      RowRead(r, r2, row, c.notional);
    }
  }

  /** Reading the row of a trade books its leg. */
  lemma LegIsRead(p: Account, row: LedgerRow, notional: real, leg: Leg, cost: real)
    requires row.price.Some? && row.position != p.position && row.kind != MarkRow && row.kind != NoFillRow && row.cashDelta == -cost
    requires var price, bought := row.price.value, row.position - p.position;
      if p.position == 0.0 then leg.entry == price && leg.realised == None && leg.value == ValueOf(Held(bought, notional, price), price)
      else if Abs(row.position) > Abs(p.position) then
        && leg.entry == Average(p.position, p.entry, bought, price)
        && leg.realised == None && leg.value == ValueOf(Held(bought, notional, price), price)
      else
        && leg.entry == (if row.position == 0.0 then 0.0 else p.entry)
        && leg.realised == Some(Profit(-Held(bought, notional, p.entry), price - p.entry))
        && leg.value == ValueOf(Held(bought, notional, p.entry), price)
    ensures Read(p, row, notional) == Account(
      p.cash + (if leg.realised.Some? then leg.realised.value else 0.0) - cost, row.position, leg.entry,
      if leg.realised.Some? then p.realised + [leg.realised.value] else p.realised, p.traded + [leg.value], p.marks, p.unfilled)
  {
    hide Held, Profit, ValueOf, Average;
  }

  lemma LogPlain<S>(r: Run<S>, r1: Run<S>, c: CostModel, ts: int, kind: Kind, price: Option<real>, delta: real)
    requires c.notional > 0.0 && BookOk(r1.book) && Plain(r, c.notional) && kind != MarkRow
    requires r1.report == r.report.(unavailable := r.report.unavailable + if kind == NoFillRow then 1 else 0)
    requires r1.book == r.book.(cash := r.book.cash + delta, funding := r1.book.funding)
    ensures Plain(Log(r1, c, ts, kind, price, delta), c.notional)
  {
    hide Equity, Worth, ReadAll, Explained;
    var r2 := Log(r1, c, ts, kind, price, delta);
    WorthIs(r2, c.notional, price);
    RowRead(r, r2, r2.report.ledger[|r.report.ledger|], c.notional);
  }

  lemma MarkPlain<S>(r: Run<S>, c: CostModel, ts: int, price: Option<real>)
    requires c.notional > 0.0 && BookOk(r.book) && Plain(r, c.notional)
    ensures Plain(Mark(r, c, ts, price), c.notional)
  {
    hide Equity, Worth, ReadAll, Explained;
    var r2 := Mark(r, c, ts, price);
    WorthIs(r2, c.notional, price);
    RowRead(r, r2, r2.report.ledger[|r.report.ledger|], c.notional);
  }

  lemma MemoryPlain<S>(r: Run<S>, s: S, notional: real)
    requires Plain(r, notional)
    ensures Plain(r.(strategy := s), notional)
  {
    hide ReadAll, Explained;
  }

  // ----- one bar -----

  lemma OpeningPlain<S>(r: Run<S>, z: Settings, strategy: Strategy<S>, bar: Bar)
    requires z.costs.notional > 0.0 && BookOk(r.book) && Plain(r, z.costs.notional)
    ensures Plain(Opening(r, z, strategy, bar), z.costs.notional)
  {
    hide Plain, TradeTo, StopPrice, FundingPaid, Log;
    var r1 := StopPhase(r, z, strategy, bar);
    if StopHit(r.book, bar) {
      var trigger := StopPrice(r.book.position > 0.0, r.book.entry);
      TradePlain(r, z.costs, strategy, 0.0, trigger, bar.spreadBps, bar.openTs, StopRow);
      TradeKeepsBook(r, z.costs, strategy, 0.0, trigger, bar.spreadBps, bar.openTs, StopRow);
    }
    if r1.book.position != 0.0 && bar.fundingRate.Some? && bar.close.Some? {
      var paid := FundingPaid(r1.book, z.costs.notional, bar.close.value, bar.fundingRate.value);
      LogPlain(r1, r1.(book := r1.book.(cash := r1.book.cash + paid, funding := r1.book.funding + paid)), z.costs, bar.openTs,
               FundingRow, bar.close, paid);
    }
  }

  lemma ClosingPlain<S>(r: Run<S>, z: Settings, strategy: Strategy<S>, bar: Bar, next: Bar)
    requires z.costs.notional > 0.0 && BookOk(r.book) && PricesOk(bar) && Plain(r, z.costs.notional)
    ensures Plain(GapPhase(r, z, strategy, bar, next), z.costs.notional)
    ensures Plain(GuardPhase(r, z, strategy, bar, next), z.costs.notional)
  {
    hide Plain, TradeTo, GuardExit;
    if r.book.position != 0.0 && bar.close.Some? {
      TradePlain(r, z.costs, strategy, 0.0, bar.close.value, bar.spreadBps, next.openTs, GapRow);
      TradePlain(r, z.costs, strategy, 0.0, bar.close.value, bar.spreadBps, next.openTs, GuardRow);
    }
  }

  lemma FillPlain<S>(r: Run<S>, z: Settings, strategy: Strategy<S>, target: real, bar: Bar, next: Bar)
    requires z.costs.notional > 0.0 && BookOk(r.book) && PricesOk(next) && (forall k :: k in z.closes ==> z.closes[k] > 0.0)
    requires Plain(r, z.costs.notional) && !Opposite(r.book.position, target)
    ensures Plain(FillPhase(r, z, strategy, target, bar, next), z.costs.notional)
  {
    hide TradeTo, FillSource, FillPrice, ReadAll, Explained, Opposite, Log;
    SourcePriced(z, next);
    var source := FillSource(z, next);
    if target != r.book.position {
      if source == Unavailable {
        LogPlain(r, r.(report := r.report.(unavailable := r.report.unavailable + 1)), z.costs, next.openTs, NoFillRow, None, 0.0);
      } else {
        var counted := r.(report := r.report.(
          atHourlyOpen := r.report.atHourlyOpen + (if source == AtHourlyOpen then 1 else 0),
          atLastTrade := r.report.atLastTrade + (if source == AtLastTrade then 1 else 0)));
        TradePlain(counted, z.costs, strategy, target, FillPrice(z, next), bar.spreadBps, next.openTs, FillRow);
      }
    }
  }

  lemma DecidePlain<S>(r: Run<S>, z: Settings, strategy: Strategy<S>, history: seq<Bar>, bar: Bar, next: Bar)
    requires z.costs.notional > 0.0 && BookOk(r.book) && PricesOk(next) && (forall k :: k in z.closes ==> z.closes[k] > 0.0)
    requires Plain(r, z.costs.notional)
    ensures Plain(DecidePhase(r, z, strategy, history, bar, next), z.costs.notional)
  {
    hide Plain, FillPhase, Routing.Clamp;
    var (s, wanted) := strategy.target(r.strategy, history);
    MemoryPlain(r, s, z.costs.notional);
    FillPlain(r.(strategy := s), z, strategy, Wanted(r.book.position, Routing.Clamp(wanted)), bar, next);
  }

  lemma StepPlain<S>(r: Run<S>, z: Settings, strategy: Strategy<S>, bars: seq<Bar>, t: nat)
    requires InputsOk(z, bars) && t + 1 < |bars| && BookOk(r.book) && Plain(r, z.costs.notional)
    ensures Plain(StepBar(r, z, strategy, bars, t), z.costs.notional)
  {
    hide Opening, GapPhase, GuardPhase, DecidePhase, Mark, BookOk, Plain;
    var bar, next := bars[t], bars[t + 1];
    var r1 := Opening(r, z, strategy, bar);
    OpeningPlain(r, z, strategy, bar);
    ClosingPlain(r1, z, strategy, bar, next);
    PhasesKeepBook(r1, z, strategy, bars[..t + 1], bar, next);
    if Gap(bar, next) {
      MarkPlain(GapPhase(r1, z, strategy, bar, next), z.costs, next.openTs, next.close);
    } else {
      GuardKeepsBook(r1, z, strategy, bar, next);
      var r2 := GuardPhase(r1, z, strategy, bar, next);
      PhasesKeepBook(r2, z, strategy, bars[..t + 1], bar, next);
      DecidePlain(r2, z, strategy, bars[..t + 1], bar, next);
      MarkPlain(DecidePhase(r2, z, strategy, bars[..t + 1], bar, next), z.costs, next.openTs, next.close);
    }
  }

  lemma {:induction false} AtPlain<S>(z: Settings, strategy: Strategy<S>, s: S, bars: seq<Bar>, warmup: nat, t: nat)
    requires InputsOk(z, bars) && warmup <= t && (t > warmup ==> t < |bars|)
    ensures Plain(At(z, strategy, s, bars, warmup, t), z.costs.notional)
    decreases t
  {
    hide Plain, StepBar, InputsOk, BookOk;
    if t == warmup {
      StartPlain(s, z.costs.notional);
    } else {
      AtPlain(z, strategy, s, bars, warmup, t - 1);
      StepPlain(At(z, strategy, s, bars, warmup, t - 1), z, strategy, bars, t - 1);
    }
  }

  lemma StartPlain<S>(s: S, notional: real)
    ensures Plain(Start(s), notional)
  {
  }

  /** The whole report follows from the ledger. In every backtest a reader of its rows has, at each row, the equity it
      shows, and at the end the backtest's cash and position, the profit of every closing trade, the value of every
      trade, the equity curve, and the number of fills that found no price. */
  lemma LedgerTellsAll<S>(z: Settings, strategy: Strategy<S>, s: S, bars: seq<Bar>, warmup: nat)
    requires InputsOk(z, bars)
    ensures var r := RunBacktest(z, strategy, s, bars, warmup);
      && ReadAll(r.report.ledger, z.costs.notional) == Account(r.book.cash, r.book.position, r.book.entry, r.report.tradePnls,
           r.report.fillNotionals, r.report.equity, r.report.unavailable)
      && forall k :: 0 <= k < |r.report.ledger| ==>
           r.report.ledger[k].equity == Worth(ReadAll(r.report.ledger[..k + 1], z.costs.notional), z.costs.notional, r.report.ledger[k].price)
  {
    hide At, ReadAll, Worth;
    AtPlain(z, strategy, s, bars, warmup, LastBar(bars, warmup));
  }
}
