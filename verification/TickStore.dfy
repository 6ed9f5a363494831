/** The tick store as an object: its tables change in place, the by-hour queries walk the window hour by hour, the
    rollup resumes where it stopped and the prune deletes in batches. Every method is proved against Rollup's values. */
module TickStore {
  import opened Types
  import opened Rollup

  /** One row an hour: the table's primary key. */
  predicate Keyed(rows: seq<RollupRow>) {
    forall a, b :: 0 <= a < b < |rows| ==> rows[a].hour != rows[b].hour
  }

  function ListOf(m: map<int, seq<real>>, k: int): seq<real> {
    if k in m then m[k] else []
  }

  /** Hour k lies in one of the first n stretches. */
  ghost predicate InRuns(runs: seq<(int, int)>, n: nat, k: int)
    requires n <= |runs|
  {
    exists r :: 0 <= r < n && runs[r].0 <= k < runs[r].1
  }

  /** The list of hour k after one read of the stretch [first, stop). */
  function Joined(books: seq<BookRow>, acc: map<int, seq<real>>, first: int, stop: int, k: int, start: int, end: int): seq<real> {
    if first <= k < stop then SpreadsIn(books, Lo(k, start), Hi(k, end)) else ListOf(acc, k)
  }

  /** The list of hour k once the first i stretches are read. */
  ghost function Gathered(books: seq<BookRow>, rolled: map<int, real>, runs: seq<(int, int)>, i: nat, k: int, start: int, end: int): seq<real>
    requires i <= |runs|
  {
    if k in rolled then [rolled[k]]
    else if InRuns(runs, i, k) then SpreadsIn(books, Lo(k, start), Hi(k, end))
    else []
  }

  /** Stretches in increasing order, none overlapping the next. */
  predicate Ascending(runs: seq<(int, int)>) {
    forall a, b :: 0 <= a < b < |runs| ==> runs[a].1 <= runs[b].0
  }

  function Column(r: RollupRow, spread: bool): Option<real> {
    if spread then r.spread else r.index
  }

  function Rolled(rows: seq<RollupRow>, spread: bool, k: int): Option<real> {
    if Lookup(rows, k).None? then None else Column(Lookup(rows, k).value, spread)
  }

  lemma {:induction false} KeyedPrefix(rows: seq<RollupRow>, n: nat, k: int)
    requires Keyed(rows) && n < |rows|
    ensures Lookup(rows[..n + 1], k) == if rows[n].hour == k then Some(rows[n]) else Lookup(rows[..n], k)
    ensures Lookup(rows[..n], rows[n].hour).None?
  {
    assert rows[..n + 1][..n] == rows[..n];
    NotThere(rows[..n], rows[n].hour);
  }

  lemma {:induction false} NotThere(rows: seq<RollupRow>, k: int)
    requires forall a :: 0 <= a < |rows| ==> rows[a].hour != k
    ensures Lookup(rows, k).None?
  {
    if rows != [] { NotThere(rows[..|rows| - 1], k); }
  }

  lemma {:induction false} Unused(rows: seq<RollupRow>, k: int)
    requires Lookup(rows, k).None?
    ensures forall a :: 0 <= a < |rows| ==> rows[a].hour != k
  {
    if rows != [] { Unused(rows[..|rows| - 1], k); }
  }

  // ----- one batch of a delete -----

  /** Deletes the first `n` old rows: what stays, and how many went. */
  function Batch<T>(rows: seq<T>, expired: T -> bool, n: nat): (seq<T>, nat) {
    if rows == [] then ([], 0)
    else
      var (front, used) := Batch(rows[..|rows| - 1], expired, n);
      var x := rows[|rows| - 1];
      if expired(x) && used < n then (front, used + 1) else (front + [x], used)
  }

  lemma {:induction false} BatchCounts<T>(rows: seq<T>, expired: T -> bool, n: nat)
    ensures var (kept, used) := Batch(rows, expired, n);
      && |kept| + used == |rows| && used <= n
      && (used == 0 ==> kept == rows)
      && (used == 0 < n ==> forall x :: x in rows ==> !expired(x))
  {
    if rows != [] {
      BatchCounts(rows[..|rows| - 1], expired, n);
      assert rows == rows[..|rows| - 1] + [rows[|rows| - 1]];
    }
  }

  lemma {:induction false} TickBatch(rows: seq<Tick>, cutoff: int, n: nat)
    ensures TicksFrom(Batch(rows, (t: Tick) => t.ts < cutoff, n).0, cutoff) == TicksFrom(rows, cutoff)
  {
    if rows != [] {
      TickBatch(rows[..|rows| - 1], cutoff, n);
      var kept := Batch(rows[..|rows| - 1], (t: Tick) => t.ts < cutoff, n).0;
      assert (kept + [rows[|rows| - 1]])[..|kept|] == kept;
    }
  }

  lemma {:induction false} BookBatch(rows: seq<BookRow>, cutoff: int, n: nat)
    ensures BooksFrom(Batch(rows, (b: BookRow) => b.ts < cutoff, n).0, cutoff) == BooksFrom(rows, cutoff)
  {
    if rows != [] {
      BookBatch(rows[..|rows| - 1], cutoff, n);
      var kept := Batch(rows[..|rows| - 1], (b: BookRow) => b.ts < cutoff, n).0;
      assert (kept + [rows[|rows| - 1]])[..|kept|] == kept;
    }
  }

  lemma {:induction false} NoOldTicks(rows: seq<Tick>, cutoff: int)
    requires forall t :: t in rows ==> t.ts >= cutoff
    ensures TicksFrom(rows, cutoff) == rows
  {
    if rows != [] {
      var last := rows[|rows| - 1];
      NoOldTicks(rows[..|rows| - 1], cutoff);
      assert last in rows;
      assert TicksFrom(rows, cutoff) == rows[..|rows| - 1] + [last];
    }
  }

  lemma {:induction false} NoOldBooks(rows: seq<BookRow>, cutoff: int)
    requires forall b :: b in rows ==> b.ts >= cutoff
    ensures BooksFrom(rows, cutoff) == rows
  {
    if rows != [] {
      var last := rows[|rows| - 1];
      NoOldBooks(rows[..|rows| - 1], cutoff);
      assert last in rows;
      assert BooksFrom(rows, cutoff) == rows[..|rows| - 1] + [last];
    }
  }

  class Tables {
    var ticks: seq<Tick>
    var books: seq<BookRow>
    var rollup: seq<RollupRow>

    ghost function View(): Store
      reads this
    {
      Store(ticks, books, rollup)
    }

    predicate Valid()
      reads this
    {
      Keyed(rollup)
    }

    constructor ()
      ensures Valid() && View() == EMPTY
    {
      ticks, books, rollup := [], [], [];
    }

    method AddTick(t: Tick) returns (isNew: bool)
      requires Valid()
      modifies this
      ensures Valid() && View() == WithTick(old(View()), t) && isNew == !TickKnown(old(ticks), t)
    {
      isNew := true;
      for i := 0 to |ticks|
        invariant isNew <==> forall j :: 0 <= j < i ==> !(ticks[j].source == t.source && ticks[j].ts == t.ts)
      {
        if ticks[i].source == t.source && ticks[i].ts == t.ts { isNew := false; }
      }
      if isNew { ticks := ticks + [t]; }
    }

    method AddBook(b: BookRow) returns (isNew: bool)
      requires Valid()
      modifies this
      ensures Valid() && View() == WithBook(old(View()), b) && isNew == !BookKnown(old(books), b)
    {
      isNew := true;
      for i := 0 to |books|
        invariant isNew <==> forall j :: 0 <= j < i ==> !(books[j].source == b.source && books[j].ts == b.ts)
      {
        if books[i].source == b.source && books[i].ts == b.ts { isNew := false; }
      }
      if isNew { books := books + [b]; }
    }

    /** The rollup's values of one column for the hours lying fully inside the window. */
    method RolledHours(spread: bool, start: int, end: int) returns (out: map<int, real>)
      requires Valid()
      ensures forall k :: k in out <==> Covered(k, start, end) && Rolled(rollup, spread, k).Some?
      ensures forall k :: k in out ==> Rolled(rollup, spread, k) == Some(out[k])
    {
      hide Lookup;
      out := map[];
      NothingWritten();
      for i := 0 to |rollup|
        invariant forall k :: k in out <==> Covered(k, start, end) && Rolled(rollup[..i], spread, k).Some?
        invariant forall k :: k in out ==> Rolled(rollup[..i], spread, k) == Some(out[k])
      {
        var h, v := rollup[i].hour, Column(rollup[i], spread);
        forall k ensures Lookup(rollup[..i + 1], k) == if rollup[i].hour == k then Some(rollup[i]) else Lookup(rollup[..i], k) {
          KeyedPrefix(rollup, i, k);
        }
        KeyedPrefix(rollup, i, h);
        if v.Some? && h * HOUR >= start && (h + 1) * HOUR - 1 <= end {
          out := out[h := v.value];
        }
      }
      assert rollup[..|rollup|] == rollup;
    }

    /** Index close by hour: covered hours from the rollup, one seek for each of the others. */
    method LastIndexByHour(start: int, end: int) returns (out: map<int, real>)
      requires Valid()
      ensures forall k :: k in out <==> HourOf(start) <= k <= HourOf(end) && IndexAt(View(), k, start, end).Some?
      ensures forall k :: k in out ==> IndexAt(View(), k, start, end) == Some(out[k])
    {
      hide NativeIn, LastIndex, Lookup;
      out := RolledHours(false, start, end);
      var hour := HourOf(start);
      while hour * HOUR <= end
        invariant HourOf(start) <= hour
        invariant forall k :: k in out <==>
          if Covered(k, start, end) && RolledIndex(View(), k).Some? then true
          else HourOf(start) <= k < hour && k * HOUR <= end && IndexAt(View(), k, start, end).Some?
        invariant forall k :: k in out ==> IndexAt(View(), k, start, end) == Some(out[k])
        decreases end - hour * HOUR
      {
        if hour in out {
          hour := hour + 1;
          continue;
        }
        var idx := LastIndex(NativeIn(ticks, Lo(hour, start), Hi(hour, end)));
        if idx.Some? { out := out[hour := idx.value]; }
        hour := hour + 1;
      }
    }

    /** The stretches of hours whose spreads have to come from the book table. */
    method BookRuns(rolled: map<int, real>, start: int, end: int) returns (runs: seq<(int, int)>)
      ensures Ascending(runs)
      ensures forall k :: InRuns(runs, |runs|, k) <==>
        HourOf(start) <= k && k * HOUR <= end && k !in rolled && FirstBook(books).Some? && k >= HourOf(FirstBook(books).value)
    {
      hide FirstBook;
      runs := [];
      var first := FirstBook(books);
      var hour := HourOf(start);
      while hour * HOUR <= end
        invariant HourOf(start) <= hour && Ascending(runs)
        invariant forall r :: 0 <= r < |runs| ==> runs[r].0 < runs[r].1 <= hour
        invariant forall k :: InRuns(runs, |runs|, k) <==>
          HourOf(start) <= k < hour && k * HOUR <= end && k !in rolled && first.Some? && k >= HourOf(first.value)
        decreases end - hour * HOUR
      {
        ghost var before := runs;
        if hour !in rolled && first.Some? && hour >= HourOf(first.value) {
          if runs != [] && runs[|runs| - 1].1 == hour {
            runs := runs[..|runs| - 1] + [(runs[|runs| - 1].0, hour + 1)];
            Stretched(before, hour);
          } else {
            runs := runs + [(hour, hour + 1)];
            Started(before, hour);
          }
        }
        hour := hour + 1;
      }
    }

    /** Spreads by hour: covered hours from the rollup as a list of one, the others from one read per stretch. */
    method SpreadsByHour(start: int, end: int) returns (out: map<int, seq<real>>)
      requires Valid()
      ensures forall k :: k in out ==> out[k] != []
      ensures forall k :: ListOf(out, k) == if HourOf(start) <= k <= HourOf(end) then SpreadList(View(), k, start, end) else []
    {
      hide SpreadBps, Lookup, SpreadsIn, FirstBook, InRuns;
      var rolled := RolledHours(true, start, end);
      out := map k | k in rolled :: [rolled[k]];
      var runs := BookRuns(rolled, start, end);
      NoRuns(runs);
      for i := 0 to |runs|
        invariant forall k :: k in out ==> out[k] != []
        invariant forall k :: ListOf(out, k) == Gathered(books, rolled, runs, i, k, start, end)
      {
        var first, stop := runs[i].0, runs[i].1;
        RunsApart(runs, i);
        RunAmong(runs, i);
        forall k | first <= k < stop ensures k !in out { assert ListOf(out, k) == []; }
        var next := ReadBooks(out, first, stop, start, end);
        forall k ensures ListOf(next, k) == Gathered(books, rolled, runs, i + 1, k, start, end) {
          assert ListOf(out, k) == Gathered(books, rolled, runs, i, k, start, end);
        }
        out := next;
      }
      forall k | HourOf(start) <= k <= HourOf(end) && k !in rolled && !InRuns(runs, |runs|, k)
        ensures SpreadsIn(books, Lo(k, start), Hi(k, end)) == []
      {
        NoBooksYet(k, start, end);
      }
    }

    lemma NoBooksYet(k: int, start: int, end: int)
      requires FirstBook(books).None? || k < HourOf(FirstBook(books).value)
      ensures SpreadsIn(books, Lo(k, start), Hi(k, end)) == []
    {
      FirstsExist(View());
      BeforeFirstBook(books, Lo(k, start), Hi(k, end));
    }

    /** One read of the book table: each row's spread joins its hour's list. */
    method ReadBooks(acc: map<int, seq<real>>, first: int, stop: int, start: int, end: int) returns (out: map<int, seq<real>>)
      requires forall k :: k in acc ==> acc[k] != []
      requires forall k :: first <= k < stop ==> k !in acc
      ensures forall k :: k in out ==> out[k] != []
      ensures forall k :: ListOf(out, k) == Joined(books, acc, first, stop, k, start, end)
    {
      hide SpreadBps, SpreadsIn, Joined, HourOf;
      out := acc;
      NoneJoined(acc, first, stop, start, end);
      var lo, hi := Lo(first, start), Hi(stop - 1, end);
      for j := 0 to |books|
        invariant forall k :: k in out ==> out[k] != []
        invariant forall k :: ListOf(out, k) == Joined(books[..j], acc, first, stop, k, start, end)
      {
        var b := books[j];
        var bps := SpreadBps(b);
        ghost var before := out;
        if lo <= b.ts <= hi && bps.Some? {
          var h := HourOf(b.ts);
          out := out[h := ListOf(out, h) + [bps.value]];
        }
        forall k ensures ListOf(out, k) == Joined(books[..j + 1], acc, first, stop, k, start, end) {
          assert ListOf(before, k) == Joined(books[..j], acc, first, stop, k, start, end);
          NextJoins(books, j, acc, first, stop, k, start, end);
        }
      }
      assert books[..|books|] == books;
    }

    /** The rows a run has to write: one per closed hour that has none yet and has something to say. */
    method Collect(now: int) returns (rows: seq<RollupRow>)
      requires Valid() && (ticks != [] || books != [])
      ensures rows == Walk(View(), StartHour(View()), now)
    {
      hide Blank, RowAt, Lookup, Walk, FirstTick, FirstBook, LastHour;
      FirstsExist(View());
      var hour := HourOf(Earliest(FirstTick(ticks), FirstBook(books)).value);
      var last := LastHour(rollup);
      if last.Some? && last.value + 1 > hour { hour := last.value + 1; }
      rows := [];
      ghost var all := Walk(View(), hour, now);
      while Closed(hour, now)
        invariant rows + Walk(View(), hour, now) == all
        decreases now - hour * HOUR
      {
        var row := ReadHour(hour);
        WalkStep(View(), hour, now);
        if !Blank(row) { rows := rows + [row]; }
        hour := hour + 1;
      }
      WalkDone(View(), hour, now);
    }

    /** All reads come before the first write; counts the rows inserted. */
    method RollUp(now: int) returns (inserted: nat)
      requires Valid()
      modifies this
      ensures Valid() && View() == RolledUp(old(View()), now) && inserted == |rollup| - |old(rollup)|
    {
      hide Walk, InsertOrIgnore, StartHour;
      inserted := 0;
      if ticks != [] || books != [] {
        var rows := Collect(now);
        inserted := WriteRows(rows);
      }
    }

    /** The three reductions of one hour, read through the queries the readers use. */
    method ReadHour(hour: int) returns (row: RollupRow)
      requires Valid()
      ensures row == RowAt(View(), hour)
    {
      hide Lookup, NativeIn, SpreadsIn, Newest, LastIndex, Median;
      var lo, hi := hour * HOUR, (hour + 1) * HOUR - 1;
      assert HourOf(lo) == hour == HourOf(hi);
      var idx := LastIndexByHour(lo, hi);
      var spreads := SpreadsByHour(lo, hi);
      var mark := Newest(NativeIn(ticks, (hour - 1) * HOUR, hour * HOUR + FILL_LATENCY));
      row := RollupRow(hour, Get(idx, hour), Median(ListOf(spreads, hour)),
                       if mark.None? then None else Some(mark.value.mark));
    }

    method WriteRows(rows: seq<RollupRow>) returns (inserted: nat)
      requires Valid()
      modifies this`rollup
      ensures Valid() && rollup == InsertOrIgnore(old(rollup), rows) && inserted == |rollup| - |old(rollup)|
    {
      hide Lookup;
      inserted := 0;
      for i := 0 to |rows|
        invariant inserted == |rollup| - |old(rollup)|
        invariant Valid() && InsertOrIgnore(rollup, rows[i..]) == InsertOrIgnore(old(rollup), rows)
      {
        if Lookup(rollup, rows[i].hour).None? {
          Unused(rollup, rows[i].hour);
          rollup, inserted := rollup + [rows[i]], inserted + 1;
        }
        assert rows[i..][1..] == rows[i + 1..];
      }
      assert rows[|rows|..] == [];
    }

    /** Deletes what is strictly older than the cutoff, a batch at a time, and counts what went. */
    method Prune(cutoff: int, batch: nat) returns (deletedTicks: nat, deletedBooks: nat)
      requires Valid()
      modifies this`ticks, this`books
      ensures View() == if batch == 0 then old(View()) else Pruned(old(View()), cutoff)
      ensures deletedTicks == |old(ticks)| - |ticks| && deletedBooks == |old(books)| - |books|
    {
      hide Batch, TicksFrom, BooksFrom;
      deletedTicks, deletedBooks := 0, 0;
      var n := 1;
      BatchCounts(ticks, (t: Tick) => t.ts < cutoff, batch);
      while n != 0
        invariant books == old(books) && TicksFrom(ticks, cutoff) == TicksFrom(old(ticks), cutoff)
        invariant |ticks| + deletedTicks == |old(ticks)| && (batch == 0 ==> ticks == old(ticks))
        invariant n == 0 && batch > 0 ==> forall t :: t in ticks ==> t.ts >= cutoff
        decreases |ticks|, n
      {
        BatchCounts(ticks, (t: Tick) => t.ts < cutoff, batch);
        TickBatch(ticks, cutoff, batch);
        var (kept, gone) := Batch(ticks, (t: Tick) => t.ts < cutoff, batch);
        ticks, n, deletedTicks := kept, gone, deletedTicks + gone;
      }
      if batch > 0 { NoOldTicks(ticks, cutoff); }
      ghost var left := ticks;
      n := 1;
      while n != 0
        invariant ticks == left && BooksFrom(books, cutoff) == BooksFrom(old(books), cutoff)
        invariant |books| + deletedBooks == |old(books)| && (batch == 0 ==> books == old(books))
        invariant n == 0 && batch > 0 ==> forall b :: b in books ==> b.ts >= cutoff
        decreases |books|, n
      {
        BatchCounts(books, (b: BookRow) => b.ts < cutoff, batch);
        BookBatch(books, cutoff, batch);
        var (kept, gone) := Batch(books, (b: BookRow) => b.ts < cutoff, batch);
        books, n, deletedBooks := kept, gone, deletedBooks + gone;
      }
      if batch > 0 { NoOldBooks(books, cutoff); }
    }

    /** Roll up, then prune. */
    method Run(now: int, days: int) returns (rolled: nat, deletedTicks: nat, deletedBooks: nat)
      requires Valid()
      modifies this
      ensures Valid() && View() == Maintained(old(View()), now, days) && rolled == |rollup| - |old(rollup)|
      ensures deletedTicks == |old(ticks)| - |ticks| && deletedBooks == |old(books)| - |books|
    {
      hide RolledUp, TicksFrom, BooksFrom;
      RollupKeepsTables(View(), now);
      rolled := RollUp(now);
      deletedTicks, deletedBooks := Prune(now - days * DAY, 5000);
    }

    /** The bars of a window, one per hour. */
    method BuildBars(f: Feeds, start: int, end: int) returns (bars: seq<HourBar>)
      requires Valid()
      ensures bars == Bars(View(), f, start, end)
    {
      hide IndexAt, SpreadList, Median, BarAt, HourOf, BarsFrom;
      bars := [];
      var first := HourOf(start);
      if first * HOUR >= end { return; }
      var last := HourOf(end - 1);
      var lo, hi := first * HOUR, (last + 1) * HOUR - 1;
      HourEnds(start, end);
      var index: map<int, real>, spreads: map<int, seq<real>> := map[], map[];
      if f.native {
        index := LastIndexByHour(lo, hi);
        spreads := SpreadsByHour(lo, hi);
      }
      var k := first;
      while k <= last
        invariant first <= k <= last + 1
        invariant bars + BarsFrom(View(), f, first, last, k) == BarsFrom(View(), f, first, last, first)
      {
        var m := Median(if f.native then ListOf(spreads, k) else []);
        var bar := HourBar(k, Get(f.candles, k), if f.native then Get(index, k) else None, Get(f.funding, k + 1),
                           if m.Some? then m.value else f.proxySpread, m.Some?, k in f.candles && (k + 1) in f.funding);
        NextBar(View(), f, first, last, k, Get(index, k), ListOf(spreads, k));
        bars := bars + [bar];
        k := k + 1;
      }
      NoMoreBars(View(), f, first, last);
    }
  }

  // ----- facts the loops use -----

  lemma NothingWritten()
    ensures forall k :: Lookup([], k).None?
  {
  }

  lemma HourEnds(start: int, end: int)
    requires HourOf(start) * HOUR < end
    ensures var first, last := HourOf(start), HourOf(end - 1);
      HourOf(first * HOUR) == first <= last && HourOf((last + 1) * HOUR - 1) == last
  {
  }

  lemma NextBar(st: Store, f: Feeds, first: int, last: int, k: int, index: Option<real>, spreads: seq<real>)
    requires k <= last
    requires f.native ==> index == IndexAt(st, k, first * HOUR, (last + 1) * HOUR - 1)
    requires f.native ==> spreads == SpreadList(st, k, first * HOUR, (last + 1) * HOUR - 1)
    ensures var m := Median(if f.native then spreads else []);
      BarsFrom(st, f, first, last, k) ==
      [HourBar(k, Get(f.candles, k), if f.native then index else None, Get(f.funding, k + 1),
               if m.Some? then m.value else f.proxySpread, m.Some?, k in f.candles && (k + 1) in f.funding)]
      + BarsFrom(st, f, first, last, k + 1)
  {
    hide IndexAt, SpreadList, Median;
  }

  lemma NoMoreBars(st: Store, f: Feeds, first: int, last: int)
    ensures BarsFrom(st, f, first, last, last + 1) == []
  {
  }

  lemma WalkStep(st: Store, k: int, now: int)
    requires Closed(k, now)
    ensures Walk(st, k, now) == (if Blank(RowAt(st, k)) then [] else [RowAt(st, k)]) + Walk(st, k + 1, now)
  {
  }

  lemma WalkDone(st: Store, k: int, now: int)
    requires !Closed(k, now)
    ensures Walk(st, k, now) == []
  {
  }

  lemma NoneYet()
    ensures forall lo, hi :: SpreadsIn([], lo, hi) == []
  {
  }

  lemma NextBook(books: seq<BookRow>, j: nat, lo: int, hi: int)
    requires j < |books|
    ensures SpreadsIn(books[..j + 1], lo, hi) ==
      if lo <= books[j].ts <= hi && SpreadBps(books[j]).Some? then SpreadsIn(books[..j], lo, hi) + [SpreadBps(books[j]).value]
      else SpreadsIn(books[..j], lo, hi)
  {
    hide SpreadBps;
    assert books[..j + 1][..j] == books[..j];
  }

  lemma NoneJoined(acc: map<int, seq<real>>, first: int, stop: int, start: int, end: int)
    requires forall k :: first <= k < stop ==> k !in acc
    ensures forall k :: ListOf(acc, k) == Joined([], acc, first, stop, k, start, end)
  {
    NoneYet();
  }

  /** One more row joins the list of its own hour, if that hour is being read and the row is in the window. */
  lemma NextJoins(books: seq<BookRow>, j: nat, acc: map<int, seq<real>>, first: int, stop: int, k: int, start: int, end: int)
    requires j < |books|
    ensures var b := books[j];
      Joined(books[..j + 1], acc, first, stop, k, start, end) ==
      if Lo(first, start) <= b.ts <= Hi(stop - 1, end) && SpreadBps(b).Some? && k == HourOf(b.ts)
      then Joined(books[..j], acc, first, stop, k, start, end) + [SpreadBps(b).value]
      else Joined(books[..j], acc, first, stop, k, start, end)
  {
    hide SpreadBps, SpreadsIn;
    NextBook(books, j, Lo(k, start), Hi(k, end));
  }

  lemma NoRuns(runs: seq<(int, int)>)
    ensures forall k :: !InRuns(runs, 0, k)
  {
  }

  /** The hours of stretch i are in no earlier one. */
  lemma RunsApart(runs: seq<(int, int)>, i: nat)
    requires i < |runs| && Ascending(runs)
    ensures forall k :: InRuns(runs, i + 1, k) <==> InRuns(runs, i, k) || runs[i].0 <= k < runs[i].1
    ensures forall k :: runs[i].0 <= k < runs[i].1 ==> !InRuns(runs, i, k)
  {
  }

  lemma RunAmong(runs: seq<(int, int)>, i: nat)
    requires i < |runs|
    ensures forall k :: runs[i].0 <= k < runs[i].1 ==> InRuns(runs, |runs|, k)
  {
  }

  lemma Stretched(runs: seq<(int, int)>, hour: int)
    requires runs != [] && runs[|runs| - 1].0 < runs[|runs| - 1].1 == hour
    ensures var wider := runs[..|runs| - 1] + [(runs[|runs| - 1].0, hour + 1)];
      forall k :: InRuns(wider, |wider|, k) <==> InRuns(runs, |runs|, k) || k == hour
  {
    var n := |runs| - 1;
    var wider := runs[..n] + [(runs[n].0, hour + 1)];
    forall k ensures InRuns(wider, |wider|, k) <==> InRuns(runs, |runs|, k) || k == hour {
      LastRun(wider, n, k);
      LastRun(runs, n, k);
      SamePrefix(runs, wider, n, k);
    }
  }

  lemma Started(runs: seq<(int, int)>, hour: int)
    ensures var more := runs + [(hour, hour + 1)];
      forall k :: InRuns(more, |more|, k) <==> InRuns(runs, |runs|, k) || k == hour
  {
    var more := runs + [(hour, hour + 1)];
    forall k ensures InRuns(more, |more|, k) <==> InRuns(runs, |runs|, k) || k == hour {
      LastRun(more, |runs|, k);
      SamePrefix(runs, more, |runs|, k);
    }
  }

  lemma LastRun(runs: seq<(int, int)>, n: nat, k: int)
    requires n < |runs|
    ensures InRuns(runs, n + 1, k) <==> InRuns(runs, n, k) || runs[n].0 <= k < runs[n].1
  {
  }

  lemma SamePrefix(runs: seq<(int, int)>, other: seq<(int, int)>, n: nat, k: int)
    requires n <= |runs| && n <= |other| && runs[..n] == other[..n]
    ensures InRuns(runs, n, k) == InRuns(other, n, k)
  {
    assert forall r :: 0 <= r < n ==> runs[r] == runs[..n][r] && other[r] == other[..n][r];
  }
}
