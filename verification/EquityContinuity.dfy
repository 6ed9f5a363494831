/** When a backtest trade is fair: equity at the trade price moves by exactly minus the cost. */
module EquityContinuity {
  import opened Types
  import opened Harness
  import opened Backtest

  /** Adding to a position held in the same direction. */
  predicate Increases(position: real, target: real) {
    position != 0.0 && Abs(target) > Abs(position)
  }

  /** p and d have one sign; the average of the entries weighted by notional, not by contracts, is exact only
      when the two prices are the same. */
  lemma AverageGap(p: real, d: real, e: real, x: real, t: real, a: real, pd: real, s: real)
    requires t == p + d && a == p * e + d * x && pd == p * d && s == (e - x) * (e - x)
    ensures t * t * x * e - (p * x + d * e) * a == -pd * s
  {
    assert t * t == p * p + 2.0 * (p * d) + d * d;
    var xe := x * e;
    assert (p * x + d * e) * (p * e + d * x) == p * p * xe + p * d * (x * x) + p * d * (e * e) + d * d * xe;
    assert t * t * x * e == (t * t) * xe;
    assert (t * t) * xe == p * p * xe + 2.0 * (p * d) * xe + d * d * xe;
    assert (e - x) * (e - x) == e * e - 2.0 * xe + x * x;
    assert -(p * d) * s == -(p * d) * (e * e) + 2.0 * (p * d) * xe - (p * d) * (x * x);
  }

  lemma SquarePositive(y: real, s: real)
    requires y > 0.0 && s == y * y
    ensures s > 0.0
  {
    assert s / y == y;
  }

  lemma SquareZero(y: real, s: real)
    requires s == y * y
    ensures s == 0.0 <==> y == 0.0
  {
    if y > 0.0 {
      SquarePositive(y, s);
    } else if y < 0.0 {
      SquarePositive(-y, s);
    }
  }

  lemma ProductZero(a: real, b: real)
    requires a != 0.0
    ensures a * b == 0.0 <==> b == 0.0
  {
  }

  /** k1 = x/e and k2 = x/e2 where e2 is the averaged entry: the leg's value is kept exactly when e == x. */
  lemma IncreaseGap(p: real, d: real, e: real, x: real, e2: real, k1: real, k2: real)
    requires p != 0.0 && d != 0.0 && (p > 0.0) == (d > 0.0) && e > 0.0 && x > 0.0
    requires (p + d) * e2 == p * e + d * x && k1 * e == x && k2 * e2 == x
    ensures (p + d) * (k2 - 1.0) == p * (k1 - 1.0) <==> e == x
  {
    var t := p + d;
    var a := p * e + d * x;
    SameSignSum(p, d, e, x);
    var gap := t * (k2 - 1.0) - p * (k1 - 1.0);
    assert gap == t * k2 - p * k1 - d;
    TimesAverage(t, k2, e2, x, a);
    var ae := a * e;
    assert ae != 0.0 by { ProductZero(a, e); }
    assert gap * ae == (t * k2 * a) * e - p * (k1 * e) * a - d * ae by { Spread(t, k2, p, k1, d, a, e); }
    assert (t * k2 * a) * e == t * t * x * e;
    assert p * (k1 * e) * a == p * x * a;
    assert gap * ae == t * t * x * e - (p * x + d * e) * a by { Gather(p, x, d, a, e); }
    var pd := p * d;
    var s := (e - x) * (e - x);
    AverageGap(p, d, e, x, t, a, pd, s);
    assert pd != 0.0 by { ProductZero(p, d); }
    SquareZero(e - x, s);
    ProductZero(-pd, s);
    ProductZero(ae, gap);
    assert gap * ae == -pd * s;
  }

  lemma SameSignSum(p: real, d: real, e: real, x: real)
    requires p != 0.0 && d != 0.0 && (p > 0.0) == (d > 0.0) && e > 0.0 && x > 0.0
    ensures p * e + d * x != 0.0
  {
    if p > 0.0 { assert p * e > 0.0 && d * x > 0.0; } else { assert p * e < 0.0 && d * x < 0.0; }
  }

  lemma TimesAverage(t: real, k2: real, e2: real, x: real, a: real)
    requires t * e2 == a && k2 * e2 == x
    ensures t * k2 * a == t * t * x
  {
    assert t * k2 * a == t * k2 * (t * e2);
    assert t * k2 * (t * e2) == t * t * (k2 * e2);
  }

  lemma Spread(t: real, k2: real, p: real, k1: real, d: real, a: real, e: real)
    ensures (t * k2 - p * k1 - d) * (a * e) == (t * k2 * a) * e - p * (k1 * e) * a - d * (a * e)
  {
    var m := a * e;
    assert (t * k2 - p * k1 - d) * m == (t * k2) * m - (p * k1) * m - d * m;
    assert (t * k2) * m == (t * k2 * a) * e;
    assert (p * k1) * m == p * (k1 * e) * a;
  }

  lemma Gather(p: real, x: real, d: real, a: real, e: real)
    ensures p * x * a + d * (a * e) == (p * x + d * e) * a
  {
  }

  // ----- the four kinds of trade -----

  /** Profit of the retained leg and of the closed leg add up. */
  lemma PnlSplits(p: real, q: real, notional: real, entry: real, price: real)
    requires entry != 0.0
    ensures Pnl(p, notional, entry, price) + Pnl(q, notional, entry, price) == Pnl(p + q, notional, entry, price)
  {
    var g := price / entry - 1.0;
    assert (p + q) * notional == p * notional + q * notional;
    assert (p * notional) * g + (q * notional) * g == (p * notional + q * notional) * g;
  }

  lemma PnlAtEntry(p: real, notional: real, entry: real)
    requires entry != 0.0
    ensures Pnl(p, notional, entry, entry) == 0.0
  {
  }

  lemma OpenAverage(delta: real, price: real)
    requires delta != 0.0
    ensures AverageCost(0.0, 0.0, delta, price, delta) == price
    ensures forall e: real :: AverageCost(0.0, e, delta, price, delta) == price
  {
    assert Abs(delta) * price / Abs(delta) == price;
  }

  /** Value of the position before and after a trade, apart from its cost. */
  predicate Continuous(b: HBook, notional: real, target: real, price: real)
    requires notional > 0.0 && BookOk(b) && price > 0.0 && target != b.position
  {
    var leg := LegOf(b, notional, target, price);
    (if leg.realised.Some? then leg.realised.value else 0.0) + Unrealised(HBook(0.0, target, leg.entry, 0.0), notional, price)
      == Unrealised(b, notional, price)
  }

  lemma OpenContinuous(b: HBook, notional: real, target: real, price: real)
    requires notional > 0.0 && BookOk(b) && price > 0.0 && b.position == 0.0 && target != 0.0
    ensures Continuous(b, notional, target, price)
  {
    hide Pnl, Units, OpeningValue, AverageCost;
    OpenAverage(target, price);
    PnlAtEntry(target, notional, price);
  }

  lemma CloseContinuous(b: HBook, notional: real, price: real)
    requires notional > 0.0 && BookOk(b) && price > 0.0 && b.position != 0.0
    ensures Continuous(b, notional, 0.0, price)
  {
    hide Pnl, Units, ClosingValue;
  }

  lemma ReduceContinuous(b: HBook, notional: real, target: real, price: real)
    requires notional > 0.0 && BookOk(b) && price > 0.0 && target != 0.0
    requires Reducing(b.position, target) && !Opposite(b.position, target)
    ensures Continuous(b, notional, target, price)
  {
    hide Pnl, Units, ClosingValue;
    assert ClosedLeg(b.position, target) + target == b.position;
    PnlSplits(ClosedLeg(b.position, target), target, notional, b.entry, price);
  }

  lemma IncreaseContinuous(b: HBook, notional: real, target: real, price: real)
    requires notional > 0.0 && BookOk(b) && price > 0.0
    requires Increases(b.position, target) && !Opposite(b.position, target)
    ensures Continuous(b, notional, target, price) <==> price == b.entry
  {
    hide Units, OpeningValue;
    var p, e := b.position, b.entry;
    var d := target - p;
    var e2 := AverageCost(p, e, d, price, target);
    AveragePositive(p, e, d, price, target);
    AverageTimes(p, e, d, price, target);
    var k1, k2 := price / e, price / e2;
    assert k1 * e == price && k2 * e2 == price;
    IncreaseGap(p, d, e, price, e2, k1, k2);
    ScaleOut(target, k2 - 1.0, p, k1 - 1.0, notional);
  }

  lemma AverageTimes(p: real, e: real, d: real, x: real, t: real)
    requires t == p + d && t != 0.0 && p != 0.0 && d != 0.0 && (p > 0.0) == (d > 0.0)
    ensures t * AverageCost(p, e, d, x, t) == p * e + d * x
  {
    var num := Abs(p) * e + Abs(d) * x;
    assert Abs(t) * (num / Abs(t)) == num;
    if p > 0.0 { assert num == p * e + d * x; } else { assert num == -(p * e) - d * x; assert t * (num / Abs(t)) == -num; }
  }

  lemma ScaleOut(t: real, g2: real, p: real, g1: real, n: real)
    requires n > 0.0
    ensures t * n * g2 == p * n * g1 <==> t * g2 == p * g1
  {
    assert t * n * g2 == n * (t * g2);
    assert p * n * g1 == n * (p * g1);
    ProductZero(n, t * g2 - p * g1);
    assert n * (t * g2 - p * g1) == n * (t * g2) - n * (p * g1);
  }

  /** Every trade the loop makes changes equity at its price by exactly minus its cost if and only if it is not a
      same-direction increase at a price other than the entry. */
  lemma TradesAreFair<S>(r: Run<S>, c: CostModel, strategy: Strategy<S>, target: real, price: real, spreadBps: real, ts: int, kind: Kind)
    requires c.notional > 0.0 && BookOk(r.book) && price > 0.0 && target != r.book.position && !Opposite(r.book.position, target)
    ensures var leg := LegOf(r.book, c.notional, target, price);
      Equity(TradeTo(r, c, strategy, target, price, spreadBps, ts, kind).book, c.notional, Some(price))
        == Equity(r.book, c.notional, Some(price)) - TradeCost(c, leg.value, spreadBps)
      <==> !(Increases(r.book.position, target) && price != r.book.entry)
  {
    hide LegOf, TradeCost, Log, Continuous;
    if r.book.position == 0.0 {
      OpenContinuous(r.book, c.notional, target, price);
    } else if target == 0.0 {
      CloseContinuous(r.book, c.notional, price);
    } else if Reducing(r.book.position, target) {
      ReduceContinuous(r.book, c.notional, target, price);
    } else {
      IncreaseContinuous(r.book, c.notional, target, price);
    }
    FairIsContinuous(r, c, strategy, target, price, spreadBps, ts, kind);
  }

  lemma FairIsContinuous<S>(r: Run<S>, c: CostModel, strategy: Strategy<S>, target: real, price: real, spreadBps: real, ts: int, kind: Kind)
    requires c.notional > 0.0 && BookOk(r.book) && price > 0.0 && target != r.book.position
    ensures var leg := LegOf(r.book, c.notional, target, price);
      Equity(TradeTo(r, c, strategy, target, price, spreadBps, ts, kind).book, c.notional, Some(price))
        == Equity(r.book, c.notional, Some(price)) - TradeCost(c, leg.value, spreadBps)
      <==> Continuous(r.book, c.notional, target, price)
  {
    hide LegOf, TradeCost, Pnl;
  }
}
