/** The reports derived from the transaction log: revenue sums, the daily sales series
    and the best-selling products. Every aggregate reads the log and the catalogue and
    writes nothing. */
module Analytics {
  import opened Common
  import opened Dates
  import opened Storage

  // ---------------------------------------------------------------- sums over the log

  /** No transaction has a negative total. */
  predicate NonNegTotals(ts: seq<Transaction>) {
    forall i :: 0 <= i < |ts| ==> ts[i].total >= 0.0
  }

  /** `getTotalRevenue`: the sum of every transaction's `total`; never negative when no
      total is. */
  function Revenue(ts: seq<Transaction>): (r: real)
    ensures NonNegTotals(ts) ==> r >= 0.0
  {
    if ts == [] then 0.0
    else
      assert NonNegTotals(ts) ==> NonNegTotals(ts[..|ts| - 1]);
      Revenue(ts[..|ts| - 1]) + ts[|ts| - 1].total
  }

  /** `getTodaysRevenue`: the revenue of today's transactions; with no negative total it
      lies between nothing and the revenue of the whole log. */
  function TodaysRevenue(ts: seq<Transaction>, today: string): (r: real)
    ensures NonNegTotals(ts) ==> 0.0 <= r <= Revenue(ts)
  {
    OnDayBound(ts, today);
    Revenue(GetTodaysTransactions(ts, today))
  }

  /** One day's transactions, when no total is negative, bring in no more than the whole log. */
  lemma {:induction false} OnDayBound(ts: seq<Transaction>, day: string)
    ensures NonNegTotals(ts) ==> NonNegTotals(OnDay(ts, day)) && Revenue(OnDay(ts, day)) <= Revenue(ts)
  {
    if ts != [] && NonNegTotals(ts) {
      var init, t := ts[..|ts| - 1], ts[|ts| - 1];
      assert ts == init + [t];
      assert NonNegTotals(init);
      OnDayBound(init, day);
      OnDayAppend(init, [t], day);
      var on := OnDay(init, day);
      if DayOf(t.createdAt) == day {
        RevenueAfterSave(on, t);
        NonNegSnoc(on, t);
      } else {
        assert on + [] == on;
      }
    }
  }

  lemma NonNegSnoc(ts: seq<Transaction>, t: Transaction)
    requires NonNegTotals(ts) && t.total >= 0.0
    ensures NonNegTotals(ts + [t])
  {
    assert forall i :: 0 <= i < |ts| ==> (ts + [t])[i] == ts[i];
  }

  /** Units in one transaction: the sum of its items' quantities. */
  function ItemCount(items: seq<TransactionItem>): int {
    if items == [] then 0 else ItemCount(items[..|items| - 1]) + items[|items| - 1].quantity
  }

  /** Units over a run of transactions. */
  function ItemsSold(ts: seq<Transaction>): int {
    if ts == [] then 0 else ItemsSold(ts[..|ts| - 1]) + ItemCount(ts[|ts| - 1].items)
  }

  /** Units of product `id` sold over the log: what `getTopProducts` accumulates. */
  function SoldOf(ts: seq<Transaction>, id: string): int {
    if ts == [] then 0 else SoldOf(ts[..|ts| - 1], id) + QtyFor(ts[|ts| - 1].items, id)
  }

  /** Revenue, count and units all add up over a concatenation of logs. */
  lemma {:induction false} SumsAppend(a: seq<Transaction>, b: seq<Transaction>)
    ensures Revenue(a + b) == Revenue(a) + Revenue(b)
    ensures ItemsSold(a + b) == ItemsSold(a) + ItemsSold(b)
  {
    if b != [] {
      assert (a + b)[..|a + b| - 1] == a + b[..|b| - 1];
      SumsAppend(a, b[..|b| - 1]);
    } else {
      assert a + b == a;
    }
  }

  /** Recording a sale raises the total revenue by exactly that sale's total. */
  lemma RevenueAfterSave(ts: seq<Transaction>, t: Transaction)
    ensures Revenue(ts + [t]) == Revenue(ts) + t.total
    ensures ItemsSold(ts + [t]) == ItemsSold(ts) + ItemCount(t.items)
  {
    assert (ts + [t])[..|ts|] == ts;
  }

  /** Recording a sale dated today raises today's revenue by its total; a sale dated
      any other day leaves it alone. */
  lemma TodaysRevenueAfterSave(ts: seq<Transaction>, t: Transaction, today: string)
    ensures TodaysRevenue(ts + [t], today) ==
      TodaysRevenue(ts, today) + (if DayOf(t.createdAt) == today then t.total else 0.0)
    ensures TodaysRevenue([], today) == 0.0
  {
    OnDayAppend(ts, [t], today);
    var on := OnDay(ts, today);
    if DayOf(t.createdAt) == today {
      RevenueAfterSave(on, t);
    } else {
      assert on + [] == on;
    }
  }

  // ---------------------------------------------------------------- daily sales

  datatype DailySales = DailySales(date: string, totalSales: real, totalTransactions: int, totalItems: int)

  /** The bucket of one day: the revenue, count and units of that day's transactions. */
  function Bucket(ts: seq<Transaction>, day: string): DailySales {
    var on := OnDay(ts, day);
    DailySales(day, Revenue(on), |on|, ItemsSold(on))
  }

  /** `getDailySales`'s result for a window of day keys, oldest first. */
  function DailyBuckets(ts: seq<Transaction>, window: seq<string>): (r: seq<DailySales>)
    ensures |r| == |window|
  {
    seq(|window|, i requires 0 <= i < |window| => Bucket(ts, window[i]))
  }

  /** The transactions whose day is one of the window's. */
  function InWindow(ts: seq<Transaction>, window: seq<string>): seq<Transaction> {
    Filter(ts, (t: Transaction) => DayOf(t.createdAt) in window)
  }

  /** A bucket after one more transaction of its day (`existing.totalSales += ...`). */
  function AddSale(b: DailySales, t: Transaction): (r: DailySales)
    ensures r.date == b.date && r.totalTransactions == b.totalTransactions + 1
  {
    b.(totalSales := b.totalSales + t.total,
       totalTransactions := b.totalTransactions + 1,
       totalItems := b.totalItems + ItemCount(t.items))
  }

  /** Scanning one more transaction adds it to its own day's bucket only. */
  lemma BucketStep(ts: seq<Transaction>, t: Transaction, day: string)
    ensures Bucket(ts + [t], day) ==
      if DayOf(t.createdAt) == day then AddSale(Bucket(ts, day), t) else Bucket(ts, day)
  {
    OnDayAppend(ts, [t], day);
    var on := OnDay(ts, day);
    if DayOf(t.createdAt) == day {
      RevenueAfterSave(on, t);
    } else {
      assert on + [] == on;
    }
  }

  /** Invariant of the scan: `sales` holds the window's days, each with its bucket over
      the transactions scanned so far. */
  ghost predicate Tallied(sales: map<string, DailySales>, ts: seq<Transaction>, window: seq<string>) {
    (forall d :: d in sales <==> d in window) &&
    (forall d :: d in sales ==> sales[d] == Bucket(ts, d))
  }

  lemma TalliedStep(sales: map<string, DailySales>, ts: seq<Transaction>, t: Transaction, window: seq<string>)
    requires Tallied(sales, ts, window)
    ensures var day := DayOf(t.createdAt);
      day in sales ==> Tallied(sales[day := AddSale(sales[day], t)], ts + [t], window)
    ensures DayOf(t.createdAt) !in sales ==> Tallied(sales, ts + [t], window)
  {
    var day := DayOf(t.createdAt);
    if day in sales {
      var after := sales[day := AddSale(sales[day], t)];
      forall d | d in after ensures after[d] == Bucket(ts + [t], d) {
        BucketStep(ts, t, d);
      }
    } else {
      forall d | d in sales ensures sales[d] == Bucket(ts + [t], d) {
        BucketStep(ts, t, d);
      }
    }
  }

  /** Before the scan every bucket of the window is zero. */
  lemma TalliedStart(sales: map<string, DailySales>, window: seq<string>)
    requires forall d :: d in sales <==> d in window
    requires forall d :: d in sales ==> sales[d] == DailySales(d, 0.0, 0, 0)
    ensures Tallied(sales, [], window)
  {
    forall d | d in sales ensures sales[d] == Bucket([], d) {
      OnDayAppend([], [], d);
    }
  }

  /** After the whole scan, reading the buckets in window order gives `DailyBuckets`. */
  lemma TalliedResult(sales: map<string, DailySales>, ts: seq<Transaction>, window: seq<string>)
    requires Tallied(sales, ts, window)
    ensures forall j :: 0 <= j < |window| ==> window[j] in sales
    ensures seq(|window|, j requires 0 <= j < |window| && window[j] in sales => sales[window[j]]) == DailyBuckets(ts, window)
  {
  }

  /** The first half of `getDailySales`: a zero bucket for each day of the window. */
  method ZeroBuckets(window: seq<string>) returns (sales: map<string, DailySales>)
    ensures forall d :: d in sales <==> d in window
    ensures forall d :: d in sales ==> sales[d] == DailySales(d, 0.0, 0, 0)
  {
    sales := map[];
    var i := 0;
    while i < |window|
      invariant 0 <= i <= |window|
      invariant forall d :: d in sales <==> d in window[..i]
      invariant forall d :: d in sales ==> sales[d] == DailySales(d, 0.0, 0, 0)
    {
      sales := sales[window[i] := DailySales(window[i], 0.0, 0, 0)];
      assert window[..i + 1] == window[..i] + [window[i]];
      i := i + 1;
    }
    assert window[..|window|] == window;
  }

  /** The second half of `getDailySales`: one pass over the log, adding each
      transaction to its day's bucket when the window has that day. */
  method TallyLog(zero: map<string, DailySales>, ts: seq<Transaction>, ghost window: seq<string>)
      returns (sales: map<string, DailySales>)
    requires Tallied(zero, [], window)
    ensures Tallied(sales, ts, window)
  {
    sales := zero;
    assert ts[..0] == [];
    var k := 0;
    while k < |ts|
      invariant 0 <= k <= |ts|
      invariant Tallied(sales, ts[..k], window)
    {
      var t := ts[k];
      var day := DayOf(t.createdAt);
      assert ts[..k + 1] == ts[..k] + [t];
      TalliedStep(sales, ts[..k], t, window);
      if day in sales {
        sales := sales[day := AddSale(sales[day], t)];
      }
      k := k + 1;
    }
    assert ts[..|ts|] == ts;
  }

  /** `getDailySales`: one zero bucket per day of the window, then one pass over the log
      adding each transaction to its day's bucket when there is one. */
  method GetDailySales(ts: seq<Transaction>, window: seq<string>) returns (r: seq<DailySales>)
    requires Distinct(window)
    ensures r == DailyBuckets(ts, window)
    ensures forall i :: 0 <= i < |window| ==>
      r[i].date == window[i] && r[i].totalTransactions == |OnDay(ts, window[i])|
  {
    var zero := ZeroBuckets(window);
    TalliedStart(zero, window);
    var sales := TallyLog(zero, ts, window);
    TalliedResult(sales, ts, window);
    r := seq(|window|, j requires 0 <= j < |window| && window[j] in sales => sales[window[j]]);
  }

  function TotalSales(r: seq<DailySales>): real {
    if r == [] then 0.0 else TotalSales(r[..|r| - 1]) + r[|r| - 1].totalSales
  }

  function TotalTransactions(r: seq<DailySales>): int {
    if r == [] then 0 else TotalTransactions(r[..|r| - 1]) + r[|r| - 1].totalTransactions
  }

  function TotalItems(r: seq<DailySales>): int {
    if r == [] then 0 else TotalItems(r[..|r| - 1]) + r[|r| - 1].totalItems
  }

  /** One more transaction joins the window's selection iff its day is in the window. */
  lemma InWindowStep(ts: seq<Transaction>, t: Transaction, window: seq<string>)
    ensures InWindow(ts + [t], window) == InWindow(ts, window) + (if DayOf(t.createdAt) in window then [t] else [])
    ensures InWindow([], window) == []
  {
    FilterAppend(ts, [t], (t: Transaction) => DayOf(t.createdAt) in window);
  }

  /** The three sums of a selection, side by side. */
  predicate SumsAdd(all: seq<Transaction>, a: seq<Transaction>, b: seq<Transaction>) {
    Revenue(all) == Revenue(a) + Revenue(b) && |all| == |a| + |b| &&
    ItemsSold(all) == ItemsSold(a) + ItemsSold(b)
  }

  lemma SumsAddStep(all: seq<Transaction>, a: seq<Transaction>, b: seq<Transaction>, t: Transaction)
    requires SumsAdd(all, a, b)
    ensures SumsAdd(all + [t], a + [t], b) && SumsAdd(all + [t], a, b + [t])
  {
    RevenueAfterSave(all, t);
    RevenueAfterSave(a, t);
    RevenueAfterSave(b, t);
  }

  /** Adding one day `w` (not yet in the window) to the window adds that day's sums. */
  lemma {:induction false} WindowSplit(ts: seq<Transaction>, window: seq<string>, w: string)
    requires w !in window
    ensures SumsAdd(InWindow(ts, window + [w]), InWindow(ts, window), OnDay(ts, w))
  {
    OnDayAppend([], [], w);
    InWindowStep([], Transaction("", [], 0.0, 0.0, 0.0, Cash, None, "", ""), window);
    InWindowStep([], Transaction("", [], 0.0, 0.0, 0.0, Cash, None, "", ""), window + [w]);
    if ts != [] {
      var init, t := ts[..|ts| - 1], ts[|ts| - 1];
      assert ts == init + [t];
      WindowSplit(init, window, w);
      InWindowStep(init, t, window + [w]);
      InWindowStep(init, t, window);
      OnDayAppend(init, [t], w);
      var all, rest, day := InWindow(init, window + [w]), InWindow(init, window), OnDay(init, w);
      var d := DayOf(t.createdAt);
      assert (d in window + [w]) == (d in window || d == w);
      if d in window {
        SumsAddStep(all, rest, day, t);
        assert day + [] == day;
      } else if d == w {
        SumsAddStep(all, rest, day, t);
        assert rest + [] == rest;
      } else {
        assert all + [] == all && rest + [] == rest && day + [] == day;
      }
    }
  }

  /** The daily series agrees with the log: its sales, transaction and unit totals are
      those of the transactions dated inside the window; the rest are ignored. */
  lemma {:induction false} DailyTotals(ts: seq<Transaction>, window: seq<string>)
    requires Distinct(window)
    ensures TotalSales(DailyBuckets(ts, window)) == Revenue(InWindow(ts, window))
    ensures TotalTransactions(DailyBuckets(ts, window)) == |InWindow(ts, window)|
    ensures TotalItems(DailyBuckets(ts, window)) == ItemsSold(InWindow(ts, window))
  {
    if window == [] {
      FilterNone(ts, (t: Transaction) => DayOf(t.createdAt) in window);
    } else {
      var init, w := window[..|window| - 1], window[|window| - 1];
      assert window == init + [w];
      DailyTotals(ts, init);
      assert DailyBuckets(ts, window)[..|init|] == DailyBuckets(ts, init);
      WindowSplit(ts, init, w);
    }
  }

  /** When every transaction falls inside the window, the series' sales add up to the
      total revenue. */
  lemma DailyTotalsWholeLog(ts: seq<Transaction>, window: seq<string>)
    requires Distinct(window)
    requires forall j :: 0 <= j < |ts| ==> DayOf(ts[j].createdAt) in window
    ensures TotalSales(DailyBuckets(ts, window)) == Revenue(ts)
    ensures TotalTransactions(DailyBuckets(ts, window)) == |ts|
    ensures TotalItems(DailyBuckets(ts, window)) == ItemsSold(ts)
  {
    DailyTotals(ts, window);
    FilterKeepsLength(ts, (t: Transaction) => DayOf(t.createdAt) in window);
  }

  // ---------------------------------------------------------------- top products

  /** A catalogue entry with its units sold (`{...product, totalSold}`). */
  datatype RankedProduct = RankedProduct(product: Product, totalSold: int)

  /** Every product of the catalogue, in catalogue order, with its units sold. */
  function Rank(ps: seq<Product>, ts: seq<Transaction>): (r: seq<RankedProduct>)
    ensures |r| == |ps|
  {
    seq(|ps|, i requires 0 <= i < |ps| => RankedProduct(ps[i], SoldOf(ts, ps[i].id)))
  }

  predicate SortedBySold(s: seq<RankedProduct>) {
    forall i, j :: 0 <= i < j < |s| ==> s[i].totalSold >= s[j].totalSold
  }

  /** Insert `x` before the first entry that sold no more than it. */
  function Insert(x: RankedProduct, s: seq<RankedProduct>): (r: seq<RankedProduct>)
    ensures multiset(r) == multiset(s) + multiset{x}
  {
    if s == [] || s[0].totalSold <= x.totalSold then [x] + s
    else
      assert s == [s[0]] + s[1..];
      [s[0]] + Insert(x, s[1..])
  }

  lemma {:induction false} InsertSorted(x: RankedProduct, s: seq<RankedProduct>)
    requires SortedBySold(s)
    ensures SortedBySold(Insert(x, s))
  {
    if s != [] && s[0].totalSold > x.totalSold {
      InsertSorted(x, s[1..]);
      var rest := Insert(x, s[1..]);
      forall i | 0 <= i < |rest| ensures rest[i].totalSold <= s[0].totalSold {
        assert rest[i] in multiset(rest);
        if rest[i] != x {
          assert rest[i] in multiset(s[1..]);
        }
      }
    }
  }

  /** The comparator `b.totalSold - a.totalSold` under a stable sort: non-increasing
      units sold, ties in catalogue order. */
  function SortBySold(s: seq<RankedProduct>): (r: seq<RankedProduct>)
    ensures SortedBySold(r)
    ensures multiset(r) == multiset(s)
  {
    if s == [] then []
    else
      assert s == [s[0]] + s[1..];
      var sorted := SortBySold(s[1..]);
      InsertSorted(s[0], sorted);
      Insert(s[0], sorted)
  }

  /** The entries that sold exactly `v` units, in order. */
  function WithSold(s: seq<RankedProduct>, v: int): seq<RankedProduct> {
    Filter(s, (e: RankedProduct) => e.totalSold == v)
  }

  lemma {:induction false} InsertStable(x: RankedProduct, s: seq<RankedProduct>, v: int)
    ensures WithSold(Insert(x, s), v) == (if x.totalSold == v then [x] else []) + WithSold(s, v)
  {
    if s == [] || s[0].totalSold <= x.totalSold {
      assert ([x] + s)[1..] == s;
    } else {
      InsertStable(x, s[1..], v);
      assert ([s[0]] + Insert(x, s[1..]))[1..] == Insert(x, s[1..]);
    }
  }

  /** The sort is stable: the entries with any one count keep their catalogue order. */
  lemma {:induction false} SortStable(s: seq<RankedProduct>, v: int)
    ensures WithSold(SortBySold(s), v) == WithSold(s, v)
  {
    if s != [] {
      SortStable(s[1..], v);
      InsertStable(s[0], SortBySold(s[1..]), v);
    }
  }

  /** `slice(0, end)`: a negative end counts back from the length. */
  function SliceTo<T>(s: seq<T>, end: int): (r: seq<T>)
    ensures r <= s
    ensures 0 <= end ==> |r| == if end < |s| then end else |s|
    ensures end < 0 ==> |r| == if |s| + end > 0 then |s| + end else 0
  {
    var n := if end >= 0 then (if end < |s| then end else |s|)
             else (if |s| + end > 0 then |s| + end else 0);
    s[..n]
  }

  /** The units recorded so far for product `id` (`productSales.get(id) || 0`). */
  function SalesOf(sales: map<string, int>, id: string): int {
    if id in sales then sales[id] else 0
  }

  lemma QtyForPrefix(items: seq<TransactionItem>, j: int, id: string)
    requires 0 <= j < |items|
    ensures QtyFor(items[..j + 1], id) == QtyFor(items[..j], id) + (if items[j].productId == id then items[j].quantity else 0)
  {
    assert items[..j + 1][..j] == items[..j];
  }

  lemma SoldOfPrefix(ts: seq<Transaction>, k: int, id: string)
    requires 0 <= k < |ts|
    ensures SoldOf(ts[..k + 1], id) == SoldOf(ts[..k], id) + QtyFor(ts[k].items, id)
  {
    assert ts[..k + 1][..k] == ts[..k];
  }

  /** `getTopProducts(limit)`: tally units per product id over every item of every
      transaction, attach the tallies to the catalogue, sort by units descending (stable)
      and keep the first `limit`. */
  method GetTopProducts(ts: seq<Transaction>, ps: seq<Product>, limit: int) returns (r: seq<RankedProduct>)
    ensures r == SliceTo(SortBySold(Rank(ps, ts)), limit)
  {
    var sales: map<string, int> := map[];
    var k := 0;
    while k < |ts|
      invariant 0 <= k <= |ts|
      invariant forall id :: SalesOf(sales, id) == SoldOf(ts[..k], id)
    {
      var items := ts[k].items;
      var j := 0;
      while j < |items|
        invariant 0 <= j <= |items|
        invariant forall id :: SalesOf(sales, id) == SoldOf(ts[..k], id) + QtyFor(items[..j], id)
      {
        var item := items[j];
        var current := SalesOf(sales, item.productId);
        sales := sales[item.productId := current + item.quantity];
        forall id ensures SalesOf(sales, id) == SoldOf(ts[..k], id) + QtyFor(items[..j + 1], id) {
          QtyForPrefix(items, j, id);
        }
        j := j + 1;
      }
      forall id ensures SalesOf(sales, id) == SoldOf(ts[..k + 1], id) {
        assert items[..|items|] == items;
        SoldOfPrefix(ts, k, id);
      }
      k := k + 1;
    }
    assert ts[..|ts|] == ts;
    var ranked := seq(|ps|, i requires 0 <= i < |ps| => RankedProduct(ps[i], SalesOf(sales, ps[i].id)));
    assert ranked == Rank(ps, ts);
    r := SliceTo(SortBySold(ranked), limit);
  }

  /** What `getTopProducts` returns: at most `limit` catalogue products (all of them when
      `limit` is larger), each with its true units sold, best sellers first, and none of
      the products left out sold more than one that was kept. */
  lemma TopProductsSpec(ps: seq<Product>, ts: seq<Transaction>, limit: int)
    ensures var all := SortBySold(Rank(ps, ts));
      var r := SliceTo(all, limit);
      SortedBySold(r) &&
      (0 <= limit ==> |r| == if limit < |ps| then limit else |ps|) &&
      (forall e :: e in r ==> e.product in ps && e.totalSold == SoldOf(ts, e.product.id)) &&
      (forall i, j :: 0 <= i < |r| <= j < |all| ==> all[j].totalSold <= r[i].totalSold)
  {
    var ranked := Rank(ps, ts);
    var all := SortBySold(ranked);
    var r := SliceTo(all, limit);
    assert |all| == |multiset(all)| == |multiset(ranked)| == |ps|;
    assert r == all[..|r|];
    assert SortedBySold(r) by {
      forall i, j | 0 <= i < j < |r| ensures r[i].totalSold >= r[j].totalSold {
        assert r[i] == all[i] && r[j] == all[j];
      }
    }
    forall i, j | 0 <= i < |r| <= j < |all| ensures all[j].totalSold <= r[i].totalSold {
      assert r[i] == all[i];
    }
    forall e | e in r ensures e.product in ps && e.totalSold == SoldOf(ts, e.product.id) {
      assert e in all;
      SortedMember(ps, ts, e);
    }
  }

  /** Sorting moves the ranked entries around but makes none up. */
  lemma SortedMember(ps: seq<Product>, ts: seq<Transaction>, e: RankedProduct)
    requires e in SortBySold(Rank(ps, ts))
    ensures e.product in ps && e.totalSold == SoldOf(ts, e.product.id)
  {
    assert e in multiset(SortBySold(Rank(ps, ts)));
    assert e in Rank(ps, ts);
  }

  /** Sum of the units sold over ranked entries. */
  function SumSold(rs: seq<RankedProduct>): int {
    if rs == [] then 0 else SumSold(rs[..|rs| - 1]) + rs[|rs| - 1].totalSold
  }

  /** Units of the items whose product is `id`, summed over a catalogue. */
  function QtyOverCatalogue(ps: seq<Product>, items: seq<TransactionItem>): int {
    if ps == [] then 0 else QtyOverCatalogue(ps[..|ps| - 1], items) + QtyFor(items, ps[|ps| - 1].id)
  }

  lemma {:induction false} RankPrefix(ps: seq<Product>, ts: seq<Transaction>, t: Transaction)
    ensures SumSold(Rank(ps, ts + [t])) == SumSold(Rank(ps, ts)) + QtyOverCatalogue(ps, t.items)
    ensures SumSold(Rank(ps, [])) == 0
  {
    if ps != [] {
      var init := ps[..|ps| - 1];
      RankPrefix(init, ts, t);
      assert Rank(ps, ts + [t])[..|init|] == Rank(init, ts + [t]);
      assert Rank(ps, ts)[..|init|] == Rank(init, ts);
      assert Rank(ps, [])[..|init|] == Rank(init, []);
      assert (ts + [t])[..|ts|] == ts;
    }
  }

  /** One item adds its quantity to the catalogue-wide tally iff its product id is listed
      exactly once. */
  lemma {:induction false} QtyOverCatalogueItem(ps: seq<Product>, items: seq<TransactionItem>, it: TransactionItem)
    requires DistinctKeys(ps, ProductId)
    ensures QtyOverCatalogue(ps, items + [it]) ==
      QtyOverCatalogue(ps, items) + (if Present(ps, ProductId, it.productId) then it.quantity else 0)
    ensures QtyOverCatalogue(ps, []) == 0
  {
    if ps != [] {
      var init, p := ps[..|ps| - 1], ps[|ps| - 1];
      QtyOverCatalogueItem(init, items, it);
      assert (items + [it])[..|items|] == items;
      if Present(ps, ProductId, it.productId) && !Present(init, ProductId, it.productId) {
        assert p.id == it.productId;
      }
      if Present(init, ProductId, it.productId) {
        var j :| 0 <= j < |init| && init[j].id == it.productId;
        assert ps[j].id == it.productId;
      }
    }
  }

  /** Over a catalogue with distinct ids, the per-product tallies of one transaction add
      up to its units on listed products. */
  lemma {:induction false} QtyOverCatalogueAll(ps: seq<Product>, items: seq<TransactionItem>)
    requires DistinctKeys(ps, ProductId)
    requires forall j :: 0 <= j < |items| ==> Present(ps, ProductId, items[j].productId)
    ensures QtyOverCatalogue(ps, items) == ItemCount(items)
  {
    if items == [] {
      QtyOverCatalogueItem(ps, [], TransactionItem("", "", 0, 0.0, 0.0));
    } else {
      var init, it := items[..|items| - 1], items[|items| - 1];
      assert items == init + [it];
      QtyOverCatalogueAll(ps, init);
      QtyOverCatalogueItem(ps, init, it);
    }
  }

  /** Every unit sold is ranked: when the catalogue's ids are distinct and every item
      names a listed product, the `totalSold` of all products add up to the units of
      all transactions. */
  lemma {:induction false} TopProductsAccountForAllSales(ps: seq<Product>, ts: seq<Transaction>)
    requires DistinctKeys(ps, ProductId)
    requires forall k, j :: 0 <= k < |ts| && 0 <= j < |ts[k].items| ==> Present(ps, ProductId, ts[k].items[j].productId)
    ensures SumSold(Rank(ps, ts)) == ItemsSold(ts)
  {
    if ts == [] {
      RankPrefix(ps, [], Transaction("", [], 0.0, 0.0, 0.0, Cash, None, "", ""));
    } else {
      var init, t := ts[..|ts| - 1], ts[|ts| - 1];
      assert ts == init + [t];
      TopProductsAccountForAllSales(ps, init);
      RankPrefix(ps, init, t);
      QtyOverCatalogueAll(ps, t.items);
    }
  }
}
