/** The backtest's prices: where a stop and a protective exit close, what a fill decides by and pays, and what funding
    moves, each in terms of contracts, entry and the bar. */
module BacktestRules {
  import opened Types
  import opened Guards
  import opened Harness
  import opened Backtest
  import opened Protection
  import opened Decisions
  import opened PlainLedger

  // ----- the stop -----

  /** A held position is closed inside the bar exactly when the bar reaches a trigger that stands 15% against it, and then
      at that trigger. */
  lemma StopClosesAtTrigger<S>(r: Run<S>, z: Settings, strategy: Strategy<S>, bar: Bar)
    requires z.costs.notional > 0.0 && BookOk(r.book)
    ensures StopHit(r.book, bar) ==>
      && r.book.position != 0.0 && bar.low.Some? && bar.high.Some?
      && var r2, n := StopPhase(r, z, strategy, bar), |r.report.ledger|;
      && r2.book.position == 0.0 && |r2.report.ledger| == n + 1
      && var row := r2.report.ledger[n];
      && row.kind == StopRow && row.price.Some? && Protects(r.book.position > 0.0, r.book.entry, row.price.value)
      && if r.book.position > 0.0 then bar.low.value <= row.price.value else bar.high.value >= row.price.value
    ensures !StopHit(r.book, bar) ==> StopPhase(r, z, strategy, bar) == r
    ensures r.book.position != 0.0 && bar.low.Some? && bar.high.Some? && !StopHit(r.book, bar) ==>
      if r.book.position > 0.0 then bar.low.value > 0.85 * r.book.entry - 0.005 else bar.high.value < 1.15 * r.book.entry + 0.005
  {
    hide StopPrice, LegOf, TradeCost, Equity;
    StopProtects(r.book.position > 0.0, r.book.entry);
  }

  // ----- the protective exits -----

  lemma SizeSign(position: real, notional: real, entry: real)
    requires notional > 0.0 && entry > 0.0 && position != 0.0
    ensures var s := Held(position, notional, entry); s != 0.0 && (s > 0.0 <==> position > 0.0)
  {
    var w := position * notional;
    var s := w / entry;
    assert s * entry == w;
    if position > 0.0 { assert w > 0.0; } else { assert -w > 0.0; }
    if s > 0.0 { assert w > 0.0; }
    if s < 0.0 { assert w < 0.0; }
  }

  /** A held position leaves at the close exactly when the close is too near the price at which its margin is gone, or
      the funding it paid has reached 2% of its contracts' value. */
  lemma GuardExitsExactly(b: HBook, notional: real, close: real)
    requires notional > 0.0 && BookOk(b) && b.position != 0.0 && close > 0.0
    ensures GuardExit(b, notional, close) <==>
      NearMargin(b.position, b.entry, close) || -b.funding >= 0.02 * (Abs(Held(b.position, notional, b.entry)) * close)
  {
    hide NearMargin, LiquidationPrice, TooClose, Held;
    SizeSign(b.position, notional, b.entry);
    var view := BookView(b, notional, close);
    assert view.size == Held(b.position, notional, b.entry) by { ViewSize(b, notional, close); }
    NearExactly(view, close);
    SameSideMargin(view.size, b.position, b.entry, close);
  }

  lemma ViewSize(b: HBook, notional: real, close: real)
    requires b.entry > 0.0
    ensures BookView(b, notional, close).size == Held(b.position, notional, b.entry)
  {
    hide LiquidationPrice, NotionalAt;
    OneQuotient(BookSize(b, notional), Held(b.position, notional, b.entry), b.position * notional, b.entry);
  }

  lemma OneQuotient(x: real, y: real, w: real, e: real)
    requires e != 0.0 && x * e == w && y * e == w
    ensures x == y
  {
    assert (x - y) * e == 0.0;
  }

  lemma SameSideMargin(x: real, y: real, entry: real, mark: real)
    requires x > 0.0 <==> y > 0.0
    ensures NearMargin(x, entry, mark) == NearMargin(y, entry, mark)
  {
  }

  // ----- funding -----

  /** Funding is paid by longs to shorts on the value of the contracts at the close, and enters cash and the position's
      funding alike. */
  lemma FundingIsOnContracts<S>(r: Run<S>, z: Settings, bar: Bar)
    requires BookOk(r.book)
    ensures var r2 := FundingPhase(r, z, bar);
      if r.book.position != 0.0 && bar.fundingRate.Some? && bar.close.Some? then
        var paid := -(Held(r.book.position, z.costs.notional, r.book.entry) * bar.close.value) * bar.fundingRate.value;
        && r2.book == r.book.(cash := r.book.cash + paid, funding := r.book.funding + paid)
        && |r2.report.ledger| == |r.report.ledger| + 1 && r2.report.ledger[|r.report.ledger|].cashDelta == paid
      else r2 == r
  {
    hide Equity;
    if r.book.position != 0.0 && bar.fundingRate.Some? && bar.close.Some? {
      var p, n, e, c, f := r.book.position, z.costs.notional, r.book.entry, bar.close.value, bar.fundingRate.value;
      OnContracts(p, n, e, c);
      assert FundingPaid(r.book, n, c, f) == -(p * n * (c / e)) * f;
    }
  }

  lemma OnContracts(p: real, n: real, e: real, c: real)
    requires e > 0.0
    ensures p * n * (c / e) == Held(p, n, e) * c
  {
    var w, g, q := p * n, c / e, p * n / e;
    assert g * e == c && q * e == w;
    assert w * g == q * e * g == q * (g * e);
  }

  // ----- what a trade costs -----

  /** A trade writes one row at its price, and its cost is the fill cost of the contracts traded at that price. */
  lemma TradeCostsItsContracts<S>(r: Run<S>, c: CostModel, strategy: Strategy<S>, target: real, price: real, spreadBps: real, ts: int, kind: Kind)
    requires c.notional > 0.0 && BookOk(r.book) && price > 0.0 && (r.book.position == 0.0 ==> r.book.entry == 0.0)
    requires target != r.book.position && !Opposite(r.book.position, target)
    ensures var r2, n := TradeTo(r, c, strategy, target, price, spreadBps, ts, kind), |r.report.ledger|;
      var closing := Abs(target) < Abs(r.book.position);
      var contracts := Held(target - r.book.position, c.notional, if closing then r.book.entry else price);
      && |r2.report.ledger| == n + 1 && r2.report.ledger[n].kind == kind && r2.report.ledger[n].price == Some(price)
      && r2.report.ledger[n].position == target == r2.book.position
      && r2.report.ledger[n].cashDelta == -FillCost(ValueOf(contracts, price), c.notional, spreadBps, c.fee, c.impactBps)
  {
    hide LegOf, FillCost, Held, Equity, ValueOf;
    LegRead(r.book, c.notional, target, price);
  }

  // ----- the fill -----

  predicate Ascending(keys: seq<int>) {
    forall i, j :: 0 <= i < j < |keys| ==> keys[i] < keys[j]
  }

  lemma {:induction false} BisectCounts(keys: seq<int>, at: int)
    requires Ascending(keys)
    ensures forall j :: 0 <= j < |keys| ==> (keys[j] <= at <==> j < BisectRight(keys, at))
  {
    if keys != [] && keys[|keys| - 1] > at { BisectCounts(keys[..|keys| - 1], at); }
  }

  /** The whole minute the fill falls in. */
  lemma MinuteIs(ts: int)
    ensures FloorMinute(ts) % 60 == 0 && FloorMinute(ts) <= ts < FloorMinute(ts) + 60
  {
  }

  /** The newest minute close at or before `at` that is not older than the settings allow. */
  ghost predicate FreshTrade(z: Settings, at: int, k: int) {
    k in z.keys && k <= at <= k + z.maxAge * 60 && forall j :: j in z.keys && j <= at ==> j <= k
  }

  /** A fill is priced at its minute's close; without one at the newest close at or before it that is fresh enough;
      without that at the next hour's open; and otherwise there is none. */
  lemma FillIsPricedBy(z: Settings, next: Bar)
    requires Ascending(z.keys) && forall k :: k in z.keys ==> k in z.closes
    ensures var at := FloorMinute(next.openTs + z.latency);
      && (at in z.closes ==> FillSource(z, next) == AtMinute && FillPrice(z, next) == z.closes[at])
      && (at !in z.closes ==>
            && (forall k :: FreshTrade(z, at, k) ==> FillSource(z, next) == AtLastTrade && FillPrice(z, next) == z.closes[k])
            && ((forall k :: !FreshTrade(z, at, k)) ==>
                  if next.open.Some? then FillSource(z, next) == AtHourlyOpen && FillPrice(z, next) == next.open.value
                  else FillSource(z, next) == Unavailable))
  {
    hide FloorMinute, BisectRight;
    var at := FloorMinute(next.openTs + z.latency);
    BisectCounts(z.keys, at);
    var i := BisectRight(z.keys, at);
    if i > 0 {
      var last := z.keys[i - 1];
      forall j | j in z.keys && j <= at ensures j <= last {
        var m :| 0 <= m < |z.keys| && z.keys[m] == j;
        assert m <= i - 1;
      }
      assert at - last <= z.maxAge * 60 <==> FreshTrade(z, at, last);
      forall k | FreshTrade(z, at, k) ensures k == last {}
    } else {
      forall k | k in z.keys ensures k > at {
        var m :| 0 <= m < |z.keys| && z.keys[m] == k;
        assert z.keys[m] > at;
      }
    }
  }

  /** Each fill asked for is counted under the one source it was priced by. */
  lemma FillIsCounted<S>(r: Run<S>, z: Settings, strategy: Strategy<S>, target: real, bar: Bar, next: Bar)
    requires z.costs.notional > 0.0 && BookOk(r.book) && PricesOk(next) && (forall k :: k in z.closes ==> z.closes[k] > 0.0)
    ensures var r2, source := FillPhase(r, z, strategy, target, bar, next), FillSource(z, next);
      if target == r.book.position then r2 == r
      else
        && r2.report.unavailable == r.report.unavailable + (if source == Unavailable then 1 else 0)
        && r2.report.atHourlyOpen == r.report.atHourlyOpen + (if source == AtHourlyOpen then 1 else 0)
        && r2.report.atLastTrade == r.report.atLastTrade + (if source == AtLastTrade then 1 else 0)
        && |r2.report.trades| == |r.report.trades| + (if source == Unavailable then 0 else 1)
  {
    hide FillSource, FillPrice, LegOf, TradeCost, Equity;
    SourcePriced(z, next);
  }

  // ----- the mark -----

  /** Every bar of the loop ends with one mark, at the next bar's opening time and its close, and the equity curve grows by
      that point. */
  lemma StepEndsWithMark<S>(r: Run<S>, z: Settings, strategy: Strategy<S>, bars: seq<Bar>, t: nat)
    requires InputsOk(z, bars) && t + 1 < |bars| && BookOk(r.book)
    ensures var r2 := StepBar(r, z, strategy, bars, t);
      && r2.report.ledger != [] && r2.report.equity != []
      && var row := r2.report.ledger[|r2.report.ledger| - 1];
      && row.kind == MarkRow && row.ts == bars[t + 1].openTs && row.price == bars[t + 1].close && row.cashDelta == 0.0
      && row.position == r2.book.position && r2.report.equity[|r2.report.equity| - 1] == (row.ts, row.equity)
  {
    hide Opening, GapPhase, GuardPhase, DecidePhase, Equity, BookOk;
    var bar, next := bars[t], bars[t + 1];
    var r1 := Opening(r, z, strategy, bar);
    GuardKeepsBook(r1, z, strategy, bar, next);
  }
}
