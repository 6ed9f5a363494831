/** What the hourly reductions mean: a spread is top of book, a median is the middle of the sorted list, an index close
    is the newest native tick's. */
module Spreads {
  import opened Types
  import opened Rollup

  // ----- top of book -----

  /** The best bid is a highest price of its side, the best ask a lowest one. */
  lemma {:induction false} BestIsExtreme(xs: seq<Price>, bid: bool)
    requires xs != []
    ensures Best(xs, bid) in xs
    ensures forall x :: x in xs ==> if bid then x <= Best(xs, bid) else x >= Best(xs, bid)
  {
    if |xs| > 1 {
      BestIsExtreme(xs[1..], bid);
      assert xs == [xs[0]] + xs[1..];
    }
  }

  /** A book with both sides has the spread between its highest bid and its lowest ask, in basis points of their mean; a
      one-sided book has none. */
  lemma SpreadIsTopOfBook(b: BookRow, bid: real, ask: real)
    ensures SpreadBps(b).None? <==> b.bids == [] || b.asks == []
    ensures bid in b.bids && ask in b.asks && (forall x :: x in b.bids ==> x <= bid) && (forall x :: x in b.asks ==> x >= ask) ==>
      SpreadBps(b) == Some((ask - bid) / ((ask + bid) / 2.0) * 10000.0)
  {
    hide Best;
    if b.bids != [] { BestIsExtreme(b.bids, true); }
    if b.asks != [] { BestIsExtreme(b.asks, false); }
  }

  // ----- the middle of a list -----

  ghost predicate Ordered(xs: seq<real>) {
    forall i, j :: 0 <= i < j < |xs| ==> xs[i] <= xs[j]
  }

  lemma Prepended(h: real, rest: seq<real>)
    requires Ordered(rest) && (rest != [] ==> h <= rest[0])
    ensures Ordered([h] + rest)
  {
    var all := [h] + rest;
    forall i, j | 0 <= i < j < |all| ensures all[i] <= all[j] {
      assert all[j] == rest[j - 1];
      if i > 0 { assert all[i] == rest[i - 1]; }
    }
  }

  lemma TailOrdered(xs: seq<real>)
    requires Ordered(xs) && xs != []
    ensures Ordered(xs[1..]) && (|xs| > 1 ==> xs[0] <= xs[1..][0])
    ensures multiset(xs) == multiset{xs[0]} + multiset(xs[1..])
  {
    assert xs == [xs[0]] + xs[1..];
  }

  lemma {:induction false} InsertOrders(x: real, xs: seq<real>)
    requires Ordered(xs)
    ensures Ordered(Insert(x, xs)) && multiset(Insert(x, xs)) == multiset{x} + multiset(xs)
    ensures Insert(x, xs)[0] == if xs == [] || x <= xs[0] then x else xs[0]
  {
    hide Ordered;
    if xs == [] || x <= xs[0] {
      Prepended(x, xs);
    } else {
      TailOrdered(xs);
      InsertOrders(x, xs[1..]);
      Prepended(xs[0], Insert(x, xs[1..]));
    }
  }

  lemma {:induction false} SortedIsOrdered(xs: seq<real>)
    ensures Ordered(Sorted(xs)) && multiset(Sorted(xs)) == multiset(xs)
  {
    if xs != [] {
      SortedIsOrdered(xs[1..]);
      InsertOrders(xs[0], Sorted(xs[1..]));
      assert xs == [xs[0]] + xs[1..];
    }
  }

  lemma LeastFirst(s: seq<real>, x: real)
    requires Ordered(s) && x in multiset(s)
    ensures s != [] && s[0] <= x
  {
    assert x in s;
  }

  lemma SameRest(h: real, x: multiset<real>, y: multiset<real>)
    requires multiset{h} + x == multiset{h} + y
    ensures x == y
  {
    assert multiset{h} + x - multiset{h} == x;
  }

  /** There is one ordered list of given elements. */
  lemma {:induction false} OneOrder(s: seq<real>, t: seq<real>)
    requires Ordered(s) && Ordered(t) && multiset(s) == multiset(t)
    ensures s == t
  {
    hide Ordered;
    if s == [] {
      assert |multiset(t)| == 0;
    } else {
      TailOrdered(s);
      assert s[0] in multiset(t);
      LeastFirst(t, s[0]);
      TailOrdered(t);
      assert t[0] in multiset(s);
      LeastFirst(s, t[0]);
      SameRest(s[0], multiset(s[1..]), multiset(t[1..]));
      OneOrder(s[1..], t[1..]);
      assert s == [s[0]] + s[1..] && t == [t[0]] + t[1..];
    }
  }

  /** The median of a list is the middle element of its elements in order, or the mean of the two middle ones. */
  lemma MedianIsMiddle(xs: seq<real>, s: seq<real>)
    requires Ordered(s) && multiset(s) == multiset(xs)
    ensures xs == [] ==> Median(xs) == None
    ensures |xs| % 2 == 1 ==> |s| == |xs| && Median(xs) == Some(s[|s| / 2])
    ensures |xs| % 2 == 0 && xs != [] ==> |s| == |xs| && Median(xs) == Some((s[|s| / 2 - 1] + s[|s| / 2]) / 2.0)
  {
    hide Sorted;
    SortedIsOrdered(xs);
    OneOrder(s, Sorted(xs));
  }

  // ----- one hour -----

  /** The books of a window that have both sides, oldest row first. */
  function TwoSided(books: seq<BookRow>, lo: int, hi: int): seq<BookRow> {
    if books == [] then []
    else
      var b := books[|books| - 1];
      TwoSided(books[..|books| - 1], lo, hi) + if lo <= b.ts <= hi && b.bids != [] && b.asks != [] then [b] else []
  }

  lemma {:induction false} TwoSidedMembers(books: seq<BookRow>, lo: int, hi: int, b: BookRow)
    ensures b in TwoSided(books, lo, hi) <==> b in books && lo <= b.ts <= hi && b.bids != [] && b.asks != []
  {
    if books != [] {
      var n := |books| - 1;
      TwoSidedMembers(books[..n], lo, hi, b);
      assert books == books[..n] + [books[n]];
    }
  }

  /** The spreads of a window are those of its two-sided books, one each. */
  lemma {:induction false} SpreadsOfWindow(books: seq<BookRow>, lo: int, hi: int)
    ensures var bs, vs := TwoSided(books, lo, hi), SpreadsIn(books, lo, hi);
      |vs| == |bs| && forall j :: 0 <= j < |bs| ==> SpreadBps(bs[j]) == Some(vs[j])
  {
    hide SpreadBps;
    if books != [] {
      var n := |books| - 1;
      SpreadsOfWindow(books[..n], lo, hi);
      SpreadIsTopOfBook(books[n], 0.0, 0.0);
    }
  }

  /** No tick is newer than the k-th, and none after it is as new. */
  ghost predicate NewestAt(ticks: seq<Tick>, k: int) {
    0 <= k < |ticks| && forall j :: 0 <= j < |ticks| ==> ticks[j].ts <= ticks[k].ts && (j > k ==> ticks[j].ts < ticks[k].ts)
  }

  /** No tick is newer, and among the newest it is the one stored last. */
  ghost predicate IsNewest(ticks: seq<Tick>, t: Tick) {
    exists k :: 0 <= k < |ticks| && NewestAt(ticks, k) && ticks[k] == t
  }

  lemma NewestGrows(ticks: seq<Tick>, k: int)
    requires ticks != [] && NewestAt(ticks[..|ticks| - 1], k)
    ensures ticks[|ticks| - 1].ts >= ticks[k].ts ==> NewestAt(ticks, |ticks| - 1)
    ensures ticks[|ticks| - 1].ts < ticks[k].ts ==> NewestAt(ticks, k)
  {
    var n := |ticks| - 1;
    assert forall j :: 0 <= j < n ==> ticks[..n][j] == ticks[j];
  }

  lemma {:induction false} NewestIs(ticks: seq<Tick>)
    ensures Newest(ticks).None? <==> ticks == []
    ensures ticks != [] ==> IsNewest(ticks, Newest(ticks).value)
  {
    hide NewestAt;
    if ticks != [] {
      var n := |ticks| - 1;
      NewestIs(ticks[..n]);
      if n == 0 {
        OnlyNewest(ticks);
      } else {
        var k :| 0 <= k < n && NewestAt(ticks[..n], k) && ticks[..n][k] == Newest(ticks[..n]).value;
        NewestGrows(ticks, k);
      }
    }
  }

  lemma OnlyNewest(ticks: seq<Tick>)
    requires |ticks| == 1
    ensures NewestAt(ticks, 0)
  {
  }

  /** A tick of one of the venue's own two feeds. */
  predicate FromVenue(t: Tick) {
    t.source in {PolymarketWs, PolymarketRest}
  }

  /** The index close the raw rows give an hour is that of the native tick in it that every other is older than. */
  lemma IndexIsNewest(st: Store, k: int, t: Tick)
    requires t in st.ticks && FromVenue(t) && k * HOUR <= t.ts < (k + 1) * HOUR && st.rollup == []
    requires forall u :: u in st.ticks && FromVenue(u) && k * HOUR <= u.ts < (k + 1) * HOUR && u != t ==> u.ts < t.ts
    ensures RowAt(st, k).index == Some(t.index)
  {
    hide Newest, NativeIn, SpreadList, Median, OpenMark;
    NewestInWindow(st.ticks, k * HOUR, (k + 1) * HOUR - 1, t);
  }

  /** The mark an hour opens at is that of the newest native tick from an hour before up to two seconds into it. */
  lemma MarkIsNewest(st: Store, k: int, t: Tick)
    requires t in st.ticks && FromVenue(t) && (k - 1) * HOUR <= t.ts <= k * HOUR + 2000000
    requires forall u :: u in st.ticks && FromVenue(u) && (k - 1) * HOUR <= u.ts <= k * HOUR + 2000000 && u != t ==> u.ts < t.ts
    ensures RowAt(st, k).mark == Some(t.mark)
  {
    hide Newest, NativeIn, SpreadList, Median, IndexAt;
    NewestInWindow(st.ticks, (k - 1) * HOUR, k * HOUR + FILL_LATENCY, t);
  }

  lemma NewestInWindow(ticks: seq<Tick>, lo: int, hi: int, t: Tick)
    requires t in ticks && Native(t) && lo <= t.ts <= hi
    requires forall u :: u in ticks && Native(u) && lo <= u.ts <= hi && u != t ==> u.ts < t.ts
    ensures Newest(NativeIn(ticks, lo, hi)) == Some(t)
  {
    hide Newest, NativeIn, Native;
    NativeMembers(ticks, lo, hi, t);
    var xs := NativeIn(ticks, lo, hi);
    NewestIs(xs);
    var u := Newest(xs).value;
    assert u in xs;
    NativeMembers(ticks, lo, hi, u);
    assert exists j :: 0 <= j < |xs| && xs[j] == t;
  }

  // ----- the bars of a window -----

  lemma {:induction false} BarsFromAt(st: Store, f: Feeds, first: int, last: int, k: int)
    requires k <= last + 1
    ensures var bars := BarsFrom(st, f, first, last, k);
      |bars| == last + 1 - k
      && forall j :: 0 <= j < |bars| ==> bars[j] == BarAt(st, f, k + j, first * HOUR, (last + 1) * HOUR - 1)
    decreases last - k
  {
    hide BarAt;
    if k <= last {
      BarsFromAt(st, f, first, last, k + 1);
      var bars, rest := BarsFrom(st, f, first, last, k), BarsFrom(st, f, first, last, k + 1);
      forall j | 0 <= j < |bars| ensures bars[j] == BarAt(st, f, k + j, first * HOUR, (last + 1) * HOUR - 1) {
        if j > 0 { assert bars[j] == rest[j - 1]; }
      }
    }
  }

  /** One bar for each hour the window touches. Each has its own hour's candle, the funding settled at its end, the
      median spread of its own two-sided books (the proxy's spread when there is none), and is complete exactly when both
      candle and funding are there. */
  lemma BarsOfWindow(st: Store, f: Feeds, start: int, end: int, j: nat)
    requires st.rollup == [] && start < end
    ensures var bars, k := Bars(st, f, start, end), HourOf(start) + j;
      && |bars| == HourOf(end - 1) - HourOf(start) + 1
      && (j < |bars| ==>
            && bars[j].hour == k && bars[j].candle == Get(f.candles, k) && bars[j].fundingRate == Get(f.funding, k + 1)
            && (bars[j].complete <==> bars[j].candle.Some? && bars[j].fundingRate.Some?)
            && (bars[j].fromBook <==> f.native && TwoSided(st.books, k * HOUR, (k + 1) * HOUR - 1) != [])
            && (bars[j].fromBook ==> Some(bars[j].spreadBps) == Median(SpreadsIn(st.books, k * HOUR, (k + 1) * HOUR - 1)))
            && (!bars[j].fromBook ==> bars[j].spreadBps == f.proxySpread))
  {
    hide Median, SpreadsIn, IndexAt, BarsFrom, TwoSided;
    var first, last := HourOf(start), HourOf(end - 1);
    BarsFromAt(st, f, first, last, first);
    if j < last - first + 1 {
      var k := first + j;
      SpreadsOfWindow(st.books, k * HOUR, (k + 1) * HOUR - 1);
      MedianNone(SpreadsIn(st.books, k * HOUR, (k + 1) * HOUR - 1));
      InsideWindow(st, k, first, last);
      MedianNone([]);
    }
  }

  lemma InsideWindow(st: Store, k: int, first: int, last: int)
    requires first <= k <= last && st.rollup == []
    ensures SpreadList(st, k, first * HOUR, (last + 1) * HOUR - 1) == SpreadsIn(st.books, k * HOUR, (k + 1) * HOUR - 1)
  {
    hide SpreadsIn;
  }

  // ----- which hours a rollup writes -----

  /** A run at `now` writes a row for an hour exactly when that hour is not before the resume point, has been over for
      five minutes, and has something to say. */
  lemma {:induction false} WalkIsExact(st: Store, k: int, now: int, row: RollupRow)
    ensures row in Walk(st, k, now) <==>
      k <= row.hour && (row.hour + 1) * HOUR + 300000000 <= now && row == RowAt(st, row.hour) && !Blank(row)
    decreases now - k * HOUR
  {
    hide RowAt, Blank;
    RowHour(st, k);
    if Closed(k, now) {
      WalkIsExact(st, k + 1, now, row);
    } else if k <= row.hour {
      assert (row.hour + 1) * HOUR >= (k + 1) * HOUR;
    }
  }

  lemma RowHour(st: Store, k: int)
    ensures RowAt(st, k).hour == k
  {
    hide IndexAt, SpreadList, Median, OpenMark;
  }

  // ----- inserts and deletes -----

  /** No two ticks of one source share a time. */
  ghost predicate TicksKeyed(ticks: seq<Tick>) {
    forall i, j :: 0 <= i < j < |ticks| ==> ticks[i].source != ticks[j].source || ticks[i].ts != ticks[j].ts
  }

  ghost predicate BooksKeyed(books: seq<BookRow>) {
    forall i, j :: 0 <= i < j < |books| ==> books[i].source != books[j].source || books[i].ts != books[j].ts
  }

  /** An insert keeps the key, never touches a row that is there, and stores the new one exactly when its source has none at
      its time. */
  lemma InsertsKeepKeys(st: Store, t: Tick, b: BookRow)
    requires TicksKeyed(st.ticks) && BooksKeyed(st.books)
    ensures var ticks := WithTick(st, t).ticks;
      TicksKeyed(ticks) && st.ticks <= ticks && (|ticks| == |st.ticks| + 1 <==> forall u :: u in st.ticks ==> u.source != t.source || u.ts != t.ts)
      && exists u :: u in ticks && u.source == t.source && u.ts == t.ts
    ensures var books := WithBook(st, b).books;
      BooksKeyed(books) && st.books <= books && (|books| == |st.books| + 1 <==> forall c :: c in st.books ==> c.source != b.source || c.ts != b.ts)
      && exists c :: c in books && c.source == b.source && c.ts == b.ts
  {
    assert t in st.ticks + [t] && b in st.books + [b];
    assert forall i :: 0 <= i < |st.ticks| ==> st.ticks[i] in st.ticks;
    assert forall i :: 0 <= i < |st.books| ==> st.books[i] in st.books;
  }

  /** A prune keeps exactly the rows at or after the cutoff. */
  lemma {:induction false} PruneIsExact(st: Store, cutoff: int, t: Tick, b: BookRow)
    ensures t in Pruned(st, cutoff).ticks <==> t in st.ticks && t.ts >= cutoff
    ensures b in Pruned(st, cutoff).books <==> b in st.books && b.ts >= cutoff
    ensures Pruned(st, cutoff).rollup == st.rollup
  {
    TicksFromIs(st.ticks, cutoff, t);
    BooksFromIs(st.books, cutoff, b);
  }

  lemma {:induction false} TicksFromIs(ticks: seq<Tick>, cutoff: int, t: Tick)
    ensures t in TicksFrom(ticks, cutoff) <==> t in ticks && t.ts >= cutoff
  {
    if ticks != [] {
      var n := |ticks| - 1;
      TicksFromIs(ticks[..n], cutoff, t);
      assert ticks == ticks[..n] + [ticks[n]];
    }
  }

  lemma {:induction false} BooksFromIs(books: seq<BookRow>, cutoff: int, b: BookRow)
    ensures b in BooksFrom(books, cutoff) <==> b in books && b.ts >= cutoff
  {
    if books != [] {
      var n := |books| - 1;
      BooksFromIs(books[..n], cutoff, b);
      assert books == books[..n] + [books[n]];
    }
  }
}
