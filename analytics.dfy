/** GET /api/admin/analytics (src/app/api/admin/analytics/route.ts): the admin dashboard's integer
    derivations from the answers of its queries. Each query's answer is a parameter, None when it
    throws (`safe` then supplies the fallback); `dayOf` is `startOfDay` in the server's time zone. */
module Analytics {
  import opened Base
  import opened Store

  // ---------------------------------------------------------------------------------------------
  // safe

  /** `safe(fn, fallback)`: the query's answer, or the fallback when it throws. */
  function Safe<T>(answer: Option<T>, fallback: T): (r: T)
    ensures answer.Some? ==> r == answer.value
    ensures answer.None? ==> r == fallback
  {
    if answer.Some? then answer.value else fallback
  }

  // ---------------------------------------------------------------------------------------------
  // Funnel

  datatype FunnelStep = FunnelStep(step: string, count: int, pct: int, dropOff: int)

  /** `prev > 0 ? Math.round((cur / prev) * 100) : 0` */
  function StepPct(prev: int, cur: int): (p: int)
    ensures prev > 0 ==> 2 * prev * p - prev <= 200 * cur < 2 * prev * p + prev
    ensures prev <= 0 ==> p == 0
  {
    if prev > 0 then RoundDiv(cur * 100, prev) else 0
  }

  function Step(name: string, prev: int, cur: int): (s: FunnelStep)
    ensures s.count == cur && s.pct == StepPct(prev, cur) && s.dropOff == Max(0, prev - cur)
  {
    FunnelStep(name, cur, StepPct(prev, cur), Max(0, prev - cur))
  }

  /** Visits, carts, checkouts and paid orders of the last 30 days. */
  function Funnel(visits: int, carts: int, checkouts: int, paid: int): (r: seq<FunnelStep>)
    ensures |r| == 4 && r[0] == FunnelStep("Visited Store", visits, 100, 0)
    ensures r[1].count == carts && r[2].count == checkouts && r[3].count == paid
    ensures forall k :: 1 <= k < 4 ==> r[k] == Step(r[k].step, r[k - 1].count, r[k].count)
  {
    [FunnelStep("Visited Store", visits, 100, 0), Step("Added to Cart", visits, carts),
     Step("Started Checkout", carts, checkouts), Step("Completed Purchase", checkouts, paid)]
  }

  /** The sign of a product with a positive factor is the sign of the other factor. */
  lemma {:induction false} PositiveFactor(a: int, x: int)
    requires a > 0
    ensures a * x <= 0 ==> x <= 0
    ensures a * x < 0 ==> x < 0
  {
    if x > 0 {
      assert a * x >= a;
    }
    if x == 0 {
      assert a * x == 0;
    }
  }

  /** A later step that keeps part of the previous one has a percentage in 0..100 and loses the
      rest as drop-off; one that keeps all of it shows 100 and no drop-off; a step that grows
      shows no drop-off. */
  lemma {:induction false} StepBounds(prev: int, cur: int)
    ensures 0 <= cur <= prev ==> 0 <= StepPct(prev, cur) <= 100 && cur + Max(0, prev - cur) == prev
    ensures 0 < cur == prev ==> StepPct(prev, cur) == 100
    ensures cur >= prev ==> Max(0, prev - cur) == 0
  {
    if 0 <= cur <= prev && prev > 0 {
      var p := StepPct(prev, cur);
      assert prev * (2 * p - 201) <= 0 by {
        assert 2 * prev * p - prev <= 200 * prev;
      }
      PositiveFactor(prev, 2 * p - 201);
      assert prev * (-2 * p - 1) < 0;
      PositiveFactor(prev, -2 * p - 1);
      if cur == prev {
        assert prev * (199 - 2 * p) < 0;
        PositiveFactor(prev, 199 - 2 * p);
      }
    }
  }

  // ---------------------------------------------------------------------------------------------
  // Customers

  datatype Segment = VIP | Loyal | New

  /** `totalOrders >= 5 ? 'VIP' : totalOrders >= 2 ? 'Loyal' : 'New'` */
  function SegmentOf(totalOrders: int): (s: Segment)
    ensures s == VIP <==> totalOrders >= 5
    ensures s == Loyal <==> 2 <= totalOrders < 5
    ensures s == New <==> totalOrders < 2
  {
    if totalOrders >= 5 then VIP else if totalOrders >= 2 then Loyal else New
  }

  function Rank(s: Segment): nat {
    match s
    case New => 0
    case Loyal => 1
    case VIP => 2
  }

  /** More orders never move a customer to a lower segment. */
  lemma {:induction false} SegmentMonotone(a: int, b: int)
    requires a <= b
    ensures Rank(SegmentOf(a)) <= Rank(SegmentOf(b))
  {
  }

  /** `orders > 0 ? Math.round(spent / orders) : 0`, for the all-time figure and per customer. */
  function AvgOrderValue(spent: int, orders: int): (v: int)
    ensures orders > 0 ==> 2 * orders * v - orders <= 2 * spent < 2 * orders * v + orders
    ensures orders <= 0 ==> v == 0
  {
    if orders > 0 then RoundDiv(spent, orders) else 0
  }

  /** When every order had the same total, the average is that total. */
  lemma {:induction false} AvgOfEqualOrders(total: int, orders: int)
    requires orders > 0
    ensures AvgOrderValue(total * orders, orders) == total
  {
    var v := AvgOrderValue(total * orders, orders);
    assert 2 * orders * v - orders <= 2 * total * orders < 2 * orders * v + orders;
    assert orders * (2 * v - 2 * total - 1) <= 0;
    assert orders * (2 * total - 2 * v - 1) < 0;
    PositiveFactor(orders, 2 * v - 2 * total - 1);
    PositiveFactor(orders, 2 * total - 2 * v - 1);
  }

  datatype CustomerRecord = CustomerRecord(id: string, name: string, email: string, totalOrders: int,
                                           totalSpent: int, lastOrderAt: Option<int>)

  datatype TopCustomer = TopCustomer(record: CustomerRecord, avgOrderValue: int, segment: Segment)

  function TopCustomers(rows: seq<CustomerRecord>): (r: seq<TopCustomer>)
    ensures |r| == |rows|
    ensures forall k :: 0 <= k < |rows| ==>
              r[k].record == rows[k] && r[k].segment == SegmentOf(rows[k].totalOrders) &&
              r[k].avgOrderValue == AvgOrderValue(rows[k].totalSpent, rows[k].totalOrders)
  {
    if rows == [] then []
    else [TopCustomer(rows[0], AvgOrderValue(rows[0].totalSpent, rows[0].totalOrders), SegmentOf(rows[0].totalOrders))]
         + TopCustomers(rows[1..])
  }

  // ---------------------------------------------------------------------------------------------
  // Distinct sequences and permutations

  predicate Distinct<T(==)>(s: seq<T>) {
    forall i, j :: 0 <= i < j < |s| ==> s[i] != s[j]
  }

  lemma {:induction false} DistinctCounts<T>(s: seq<T>)
    requires Distinct(s)
    ensures forall x :: multiset(s)[x] <= 1
  {
    if s != [] {
      assert s == [s[0]] + s[1..];
      assert Distinct(s[1..]);
      DistinctCounts(s[1..]);
      assert s[0] !in s[1..];
    }
  }

  lemma {:induction false} CountsDistinct<T>(s: seq<T>)
    requires forall x :: multiset(s)[x] <= 1
    ensures Distinct(s)
  {
    forall i, j | 0 <= i < j < |s|
      ensures s[i] != s[j]
    {
      assert s == s[..j] + s[j..];
      assert multiset(s)[s[i]] == multiset(s[..j])[s[i]] + multiset(s[j..])[s[i]];
      assert s[i] in s[..j] && s[j] in s[j..];
    }
  }

  /** A permutation of a sequence without repeats has none. */
  lemma {:induction false} PermutationKeepsDistinct<T>(s: seq<T>, t: seq<T>)
    requires Distinct(s) && multiset(s) == multiset(t)
    ensures Distinct(t)
  {
    DistinctCounts(s);
    CountsDistinct(t);
  }

  // ---------------------------------------------------------------------------------------------
  // Revenue by category

  /** A row of the per-product revenue `groupBy`, and of the product-to-category lookup. */
  datatype ProductRevenue = ProductRevenue(productId: string, total: Option<int>)
  datatype ProductCategory = ProductCategory(id: string, category: Option<string>)

  const Other := "Other"

  /** `prodCatMap.find(p => p.id === productId)?.category?.name || 'Other'` */
  function CategoryOf(cats: seq<ProductCategory>, productId: string): (c: string)
    ensures c != ""
    ensures (forall k :: 0 <= k < |cats| ==> cats[k].id != productId) ==> c == Other
  {
    if cats == [] then Other
    else if cats[0].id == productId then
      (if cats[0].category.Some? && cats[0].category.value != "" then cats[0].category.value else Other)
    else CategoryOf(cats[1..], productId)
  }

  /** `r._sum?.total || 0` */
  function Amount(r: ProductRevenue): int {
    if r.total.Some? then r.total.value else 0
  }

  /** The sum of the amounts of the rows that fall in category `c`. */
  function CategorySum(rows: seq<ProductRevenue>, cats: seq<ProductCategory>, c: string): int
    decreases |rows|
  {
    if rows == [] then 0
    else CategorySum(rows[..|rows| - 1], cats, c) +
         (if CategoryOf(cats, rows[|rows| - 1].productId) == c then Amount(rows[|rows| - 1]) else 0)
  }

  /** `catRevMap` after the `forEach` over `rows`, with its keys in insertion order. */
  function Tally(rows: seq<ProductRevenue>, cats: seq<ProductCategory>): (r: (map<string, int>, seq<string>))
    decreases |rows|
  {
    if rows == [] then (map[], [])
    else
      var (m, ks) := Tally(rows[..|rows| - 1], cats);
      var row := rows[|rows| - 1];
      var c := CategoryOf(cats, row.productId);
      if c in m then (m[c := m[c] + Amount(row)], ks) else (m[c := Amount(row)], ks + [c])
  }

  /** Some row falls in category `c`. */
  predicate Falls(rows: seq<ProductRevenue>, cats: seq<ProductCategory>, c: string) {
    exists k :: 0 <= k < |rows| && CategoryOf(cats, rows[k].productId) == c
  }

  lemma {:induction false} FallsOfPrefix(rows: seq<ProductRevenue>, cats: seq<ProductCategory>, c: string)
    requires rows != []
    ensures Falls(rows, cats, c) <==>
              Falls(rows[..|rows| - 1], cats, c) || CategoryOf(cats, rows[|rows| - 1].productId) == c
  {
    var init := rows[..|rows| - 1];
    if Falls(rows, cats, c) {
      var k :| 0 <= k < |rows| && CategoryOf(cats, rows[k].productId) == c;
      if k < |init| {
        assert init[k] == rows[k];
      }
    }
    if Falls(init, cats, c) {
      var k :| 0 <= k < |init| && CategoryOf(cats, init[k].productId) == c;
      assert rows[k] == init[k];
    }
  }

  /** The keys are listed once each, in the order they were first met. */
  lemma {:induction false} TallyKeys(rows: seq<ProductRevenue>, cats: seq<ProductCategory>)
    ensures var (m, ks) := Tally(rows, cats);
            Distinct(ks) && forall c :: c in ks <==> c in m
    decreases |rows|
  {
    if rows != [] {
      TallyKeys(rows[..|rows| - 1], cats);
    }
  }

  /** A category is a key exactly when some row falls in it, and its value is its rows' sum. */
  lemma {:induction false} TallyEntry(rows: seq<ProductRevenue>, cats: seq<ProductCategory>, c: string)
    ensures (c in Tally(rows, cats).0 <==> Falls(rows, cats, c))
    ensures c in Tally(rows, cats).0 ==> Tally(rows, cats).0[c] == CategorySum(rows, cats, c)
    ensures c !in Tally(rows, cats).0 ==> CategorySum(rows, cats, c) == 0
    decreases |rows|
  {
    if rows != [] {
      TallyEntry(rows[..|rows| - 1], cats, c);
      FallsOfPrefix(rows, cats, c);
    }
  }

  /** `Object.entries(catRevMap)` */
  function Entries(m: map<string, int>, ks: seq<string>): (r: seq<(string, int)>)
    ensures forall p :: p in r ==> p.0 in m && p.1 == m[p.0]
    ensures (forall k :: k in ks ==> k in m) ==>
              |r| == |ks| && forall i :: 0 <= i < |ks| ==> r[i] == (ks[i], m[ks[i]])
  {
    if ks == [] then []
    else (if ks[0] in m then [(ks[0], m[ks[0]])] else []) + Entries(m, ks[1..])
  }

  predicate RevenueDesc(s: seq<(string, int)>) {
    forall i, j :: 0 <= i < j < |s| ==> s[i].1 >= s[j].1
  }

  function InsertByRevenue(x: (string, int), s: seq<(string, int)>): (r: seq<(string, int)>)
    requires RevenueDesc(s)
    ensures RevenueDesc(r)
    ensures multiset(r) == multiset(s) + multiset{x}
    ensures |r| == |s| + 1 && (r[0] == x || (s != [] && r[0] == s[0]))
  {
    if s == [] || x.1 >= s[0].1 then
      ConsDesc(x, s);
      [x] + s
    else
      var rest := InsertByRevenue(x, s[1..]);
      assert s == [s[0]] + s[1..];
      ConsDesc(s[0], rest);
      [s[0]] + rest
  }

  /** A pair no lower than the head of a descending list keeps it descending. */
  lemma {:induction false} ConsDesc(y: (string, int), s: seq<(string, int)>)
    requires RevenueDesc(s) && (s == [] || y.1 >= s[0].1)
    ensures RevenueDesc([y] + s)
  {
    forall i, j | 0 <= i < j < |[y] + s|
      ensures ([y] + s)[i].1 >= ([y] + s)[j].1
    {
      if i == 0 {
        assert ([y] + s)[j] == s[j - 1];
      } else {
        assert ([y] + s)[i] == s[i - 1] && ([y] + s)[j] == s[j - 1];
      }
    }
  }

  /** `.sort((a, b) => b.revenue - a.revenue)`, stable. */
  function ByRevenueDesc(s: seq<(string, int)>): (r: seq<(string, int)>)
    ensures RevenueDesc(r)
    ensures multiset(r) == multiset(s)
  {
    if s == [] then []
    else
      assert s == [s[0]] + s[1..];
      InsertByRevenue(s[0], ByRevenueDesc(s[1..]))
  }

  /** The loop that fills `catRevMap`, then the sorted entries. */
  method CategoryRevenue(rows: seq<ProductRevenue>, cats: seq<ProductCategory>) returns (entries: seq<(string, int)>)
    ensures entries == ByRevenueDesc(Entries(Tally(rows, cats).0, Tally(rows, cats).1))
  {
    var m: map<string, int> := map[];
    var ks: seq<string> := [];
    var i := 0;
    while i < |rows|
      invariant 0 <= i <= |rows|
      invariant (m, ks) == Tally(rows[..i], cats)
    {
      var c := CategoryOf(cats, rows[i].productId);
      if c in m {
        m := m[c := m[c] + Amount(rows[i])];
      } else {
        m := m[c := Amount(rows[i])];
        ks := ks + [c];
      }
      assert rows[..i + 1][..i] == rows[..i];
      i := i + 1;
    }
    assert rows[..|rows|] == rows;
    entries := ByRevenueDesc(Entries(m, ks));
  }

  /** The category chart: one entry per category some row falls in, each with the sum of its
      rows, with no category twice, highest revenue first. */
  lemma {:induction false} CategoryRevenueCorrect(rows: seq<ProductRevenue>, cats: seq<ProductCategory>, c: string)
    ensures var e := ByRevenueDesc(Entries(Tally(rows, cats).0, Tally(rows, cats).1));
            RevenueDesc(e) &&
            (forall i, j :: 0 <= i < j < |e| ==> e[i].0 != e[j].0) &&
            (forall k :: 0 <= k < |e| ==> e[k].1 == CategorySum(rows, cats, e[k].0)) &&
            ((exists k :: 0 <= k < |e| && e[k].0 == c) <==> Falls(rows, cats, c))
  {
    var (m, ks) := Tally(rows, cats);
    TallyKeys(rows, cats);
    var en := Entries(m, ks);
    var e := ByRevenueDesc(en);
    assert Distinct(en) by {
      forall i, j | 0 <= i < j < |en|
        ensures en[i] != en[j]
      {
        assert en[i].0 == ks[i] && en[j].0 == ks[j];
      }
    }
    PermutationKeepsDistinct(en, e);
    forall k | 0 <= k < |e|
      ensures e[k] in en && e[k].1 == CategorySum(rows, cats, e[k].0)
    {
      assert e[k] in multiset(e);
      TallyEntry(rows, cats, e[k].0);
    }
    forall i, j | 0 <= i < j < |e|
      ensures e[i].0 != e[j].0
    {
      assert e[i] in en && e[j] in en;
    }
    TallyEntry(rows, cats, c);
    if c in m {
      var i :| 0 <= i < |ks| && ks[i] == c;
      assert en[i] in multiset(e);
      var k :| 0 <= k < |e| && e[k] == en[i];
      assert e[k].0 == c;
    }
  }

  // ---------------------------------------------------------------------------------------------
  // Revenue by day (the fallback when there are no daily statistics)

  datatype DayStats = DayStats(revenue: int, orders: int)

  /** A row of the raw paid-orders query: (createdAt, total). */
  type RawOrder = (int, int)

  function DayRevenue(orders: seq<RawOrder>, dayOf: int -> int, d: int): int
    decreases |orders|
  {
    if orders == [] then 0
    else DayRevenue(orders[..|orders| - 1], dayOf, d) +
         (if dayOf(orders[|orders| - 1].0) == d then orders[|orders| - 1].1 else 0)
  }

  function DayCount(orders: seq<RawOrder>, dayOf: int -> int, d: int): nat
    decreases |orders|
  {
    if orders == [] then 0
    else DayCount(orders[..|orders| - 1], dayOf, d) + (if dayOf(orders[|orders| - 1].0) == d then 1 else 0)
  }

  /** `byDay` after the `forEach`, with its keys in insertion order. */
  function DayTally(orders: seq<RawOrder>, dayOf: int -> int): (r: (map<int, DayStats>, seq<int>))
    decreases |orders|
  {
    if orders == [] then (map[], [])
    else
      var (m, ks) := DayTally(orders[..|orders| - 1], dayOf);
      var o := orders[|orders| - 1];
      var d := dayOf(o.0);
      if d in m then (m[d := DayStats(m[d].revenue + o.1, m[d].orders + 1)], ks)
      else (m[d := DayStats(o.1, 1)], ks + [d])
  }

  /** Some order falls on day `d`. */
  predicate OnDay(orders: seq<RawOrder>, dayOf: int -> int, d: int) {
    exists k :: 0 <= k < |orders| && dayOf(orders[k].0) == d
  }

  lemma {:induction false} OnDayOfPrefix(orders: seq<RawOrder>, dayOf: int -> int, d: int)
    requires orders != []
    ensures OnDay(orders, dayOf, d) <==> OnDay(orders[..|orders| - 1], dayOf, d) || dayOf(orders[|orders| - 1].0) == d
  {
    var init := orders[..|orders| - 1];
    if OnDay(orders, dayOf, d) {
      var k :| 0 <= k < |orders| && dayOf(orders[k].0) == d;
      if k < |init| {
        assert init[k] == orders[k];
      }
    }
    if OnDay(init, dayOf, d) {
      var k :| 0 <= k < |init| && dayOf(init[k].0) == d;
      assert orders[k] == init[k];
    }
  }

  lemma {:induction false} DayTallyKeys(orders: seq<RawOrder>, dayOf: int -> int)
    ensures var (m, ks) := DayTally(orders, dayOf);
            Distinct(ks) && forall d :: d in ks <==> d in m
    decreases |orders|
  {
    if orders != [] {
      DayTallyKeys(orders[..|orders| - 1], dayOf);
    }
  }

  /** A day is a key exactly when some order falls on it, and its value is that day's revenue
      and count. */
  lemma {:induction false} DayTallyEntry(orders: seq<RawOrder>, dayOf: int -> int, d: int)
    ensures (d in DayTally(orders, dayOf).0 <==> OnDay(orders, dayOf, d))
    ensures d in DayTally(orders, dayOf).0 ==>
              DayTally(orders, dayOf).0[d] == DayStats(DayRevenue(orders, dayOf, d), DayCount(orders, dayOf, d))
    ensures d !in DayTally(orders, dayOf).0 ==> DayRevenue(orders, dayOf, d) == 0 && DayCount(orders, dayOf, d) == 0
    decreases |orders|
  {
    if orders != [] {
      DayTallyEntry(orders[..|orders| - 1], dayOf, d);
      OnDayOfPrefix(orders, dayOf, d);
    }
  }

  predicate Ascending(s: seq<int>) {
    forall i, j :: 0 <= i < j < |s| ==> s[i] <= s[j]
  }

  function InsertDay(x: int, s: seq<int>): (r: seq<int>)
    requires Ascending(s)
    ensures Ascending(r)
    ensures multiset(r) == multiset(s) + multiset{x}
    ensures |r| == |s| + 1 && (r[0] == x || (s != [] && r[0] == s[0]))
  {
    if s == [] || x <= s[0] then [x] + s
    else
      var rest := InsertDay(x, s[1..]);
      assert s == [s[0]] + s[1..];
      [s[0]] + rest
  }

  /** `.sort(([a], [b]) => a.localeCompare(b))` on the day keys. */
  function SortDays(s: seq<int>): (r: seq<int>)
    ensures Ascending(r)
    ensures multiset(r) == multiset(s)
  {
    if s == [] then []
    else
      assert s == [s[0]] + s[1..];
      InsertDay(s[0], SortDays(s[1..]))
  }

  datatype ChartPoint = ChartPoint(day: int, revenue: int, orders: int)

  function Points(m: map<int, DayStats>, days: seq<int>): (r: seq<ChartPoint>)
    ensures (forall i :: 0 <= i < |days| ==> days[i] in m) ==>
              |r| == |days| && forall i :: 0 <= i < |days| ==> r[i] == ChartPoint(days[i], m[days[i]].revenue, m[days[i]].orders)
  {
    if days == [] then []
    else (if days[0] in m then [ChartPoint(days[0], m[days[0]].revenue, m[days[0]].orders)] else []) + Points(m, days[1..])
  }

  function ByDayChart(orders: seq<RawOrder>, dayOf: int -> int): seq<ChartPoint> {
    var (m, ks) := DayTally(orders, dayOf);
    Points(m, SortDays(ks))
  }

  /** The loop that fills `byDay`, then the points in day order. */
  method RevenueByDay(orders: seq<RawOrder>, dayOf: int -> int) returns (chart: seq<ChartPoint>)
    ensures chart == ByDayChart(orders, dayOf)
  {
    var m: map<int, DayStats> := map[];
    var ks: seq<int> := [];
    var i := 0;
    while i < |orders|
      invariant 0 <= i <= |orders|
      invariant (m, ks) == DayTally(orders[..i], dayOf)
    {
      var d := dayOf(orders[i].0);
      if d in m {
        m := m[d := DayStats(m[d].revenue + orders[i].1, m[d].orders + 1)];
      } else {
        m := m[d := DayStats(orders[i].1, 1)];
        ks := ks + [d];
      }
      assert orders[..i + 1][..i] == orders[..i];
      i := i + 1;
    }
    assert orders[..|orders|] == orders;
    chart := Points(m, SortDays(ks));
  }

  /** The chart has one point per key of `byDay`, in sorted order, each with that key's value. */
  lemma {:induction false} ChartPoints(orders: seq<RawOrder>, dayOf: int -> int)
    ensures var (m, ks) := DayTally(orders, dayOf);
            var days := SortDays(ks);
            var c := ByDayChart(orders, dayOf);
            Distinct(days) && multiset(days) == multiset(ks) && |c| == |days| &&
            forall k :: 0 <= k < |days| ==> days[k] in m && c[k] == ChartPoint(days[k], m[days[k]].revenue, m[days[k]].orders)
  {
    var (m, ks) := DayTally(orders, dayOf);
    DayTallyKeys(orders, dayOf);
    var days := SortDays(ks);
    PermutationKeepsDistinct(ks, days);
    forall i | 0 <= i < |days|
      ensures days[i] in m
    {
      assert days[i] in multiset(days);
    }
  }

  /** The per-day chart lists days in strictly ascending order. */
  lemma {:induction false} ByDayChartAscending(orders: seq<RawOrder>, dayOf: int -> int)
    ensures var c := ByDayChart(orders, dayOf);
            forall i, j :: 0 <= i < j < |c| ==> c[i].day < c[j].day
  {
    ChartPoints(orders, dayOf);
  }

  /** Each point holds the count and the revenue of that day's paid orders. */
  lemma {:induction false} ByDayChartTotals(orders: seq<RawOrder>, dayOf: int -> int, k: nat)
    requires k < |ByDayChart(orders, dayOf)|
    ensures var p := ByDayChart(orders, dayOf)[k];
            p.revenue == DayRevenue(orders, dayOf, p.day) && p.orders == DayCount(orders, dayOf, p.day)
  {
    ChartPoints(orders, dayOf);
    DayTallyEntry(orders, dayOf, SortDays(DayTally(orders, dayOf).1)[k]);
  }

  /** A day has a point exactly when some paid order falls on it. */
  lemma {:induction false} ByDayChartDays(orders: seq<RawOrder>, dayOf: int -> int, d: int)
    ensures var c := ByDayChart(orders, dayOf);
            (exists k :: 0 <= k < |c| && c[k].day == d) <==> OnDay(orders, dayOf, d)
  {
    var (m, ks) := DayTally(orders, dayOf);
    ChartPoints(orders, dayOf);
    DayTallyKeys(orders, dayOf);
    DayTallyEntry(orders, dayOf, d);
    var days := SortDays(ks);
    var c := ByDayChart(orders, dayOf);
    if d in m {
      assert d in multiset(days);
      var k :| 0 <= k < |days| && days[k] == d;
      assert c[k].day == d;
    }
    if exists k :: 0 <= k < |c| && c[k].day == d {
      var k :| 0 <= k < |c| && c[k].day == d;
      assert days[k] in m;
    }
  }

  // ---------------------------------------------------------------------------------------------
  // Channels

  /** A row of the `groupBy(utmSource)` query. */
  datatype ChannelRow = ChannelRow(utmSource: Option<string>, count: Option<int>, sum: Option<int>)
  datatype ChannelStat = ChannelStat(channel: string, orders: int, revenue: int)

  predicate Tagged(row: ChannelRow) { row.utmSource.Some? && row.utmSource.value != "" }

  function StatOf(row: ChannelRow): ChannelStat
    requires Tagged(row)
  {
    ChannelStat(row.utmSource.value, if row.count.Some? then row.count.value else 0,
                if row.sum.Some? then row.sum.value else 0)
  }

  /** `.filter(c => c.utmSource).map(...)` */
  function ChannelStats(rows: seq<ChannelRow>): (r: seq<ChannelStat>)
    ensures |r| <= |rows|
    ensures forall k :: 0 <= k < |r| ==> r[k].channel != ""
    ensures forall s :: s in r <==> exists k :: 0 <= k < |rows| && Tagged(rows[k]) && s == StatOf(rows[k])
  {
    if rows == [] then []
    else
      var rest := ChannelStats(rows[1..]);
      assert forall k :: 0 <= k < |rows[1..]| ==> rows[1..][k] == rows[k + 1];
      (if Tagged(rows[0]) then [StatOf(rows[0])] else []) + rest
  }

  /** The filter-map keeps the rows' order: the stats of a concatenation are the stats of each
      part, one after the other. */
  lemma {:induction false} ChannelStatsAppend(a: seq<ChannelRow>, b: seq<ChannelRow>)
    ensures ChannelStats(a + b) == ChannelStats(a) + ChannelStats(b)
  {
    if a == [] {
      assert a + b == b;
    } else {
      assert (a + b)[0] == a[0];
      assert (a + b)[1..] == a[1..] + b;
      ChannelStatsAppend(a[1..], b);
    }
  }

  /** A single row gives exactly one stat when it has a source, and none otherwise. */
  lemma ChannelStatsSingle(row: ChannelRow)
    ensures ChannelStats([row]) == if Tagged(row) then [StatOf(row)] else []
  {
    assert [row][1..] == [];
  }

  // ---------------------------------------------------------------------------------------------
  // The dashboard

  datatype DailyStat = DailyStat(date: int, revenue: int, orders: int)

  /** The answers of the queries modelled here, None where a query throws. `allTimeRevenue`
      holds the aggregate's `_sum.total`, None inside when there are no paid orders. */
  datatype Answers = Answers(pageViews30d: Option<int>, cartsCreated: Option<int>, checkoutStarted: Option<int>,
                             paid30d: Option<int>, allTimeCount: Option<int>, allTimeRevenue: Option<Option<int>>,
                             revenueByProduct: Option<seq<ProductRevenue>>, productCategories: Option<seq<ProductCategory>>,
                             dailyStats: Option<seq<DailyStat>>, rawOrders: Option<seq<RawOrder>>,
                             channels: Option<seq<ChannelRow>>, topCustomers: Option<seq<CustomerRecord>>)

  datatype Dashboard = Dashboard(funnel: seq<FunnelStep>, allTimeRevenue: int, avgOrderValue: int,
                                 revenueByCategory: seq<(string, int)>, revenueChart: seq<ChartPoint>,
                                 channelStats: seq<ChannelStat>, topCustomers: seq<TopCustomer>)

  function DailyPoints(stats: seq<DailyStat>): (r: seq<ChartPoint>)
    ensures |r| == |stats| && forall k :: 0 <= k < |stats| ==> r[k] == ChartPoint(stats[k].date, stats[k].revenue, stats[k].orders)
  {
    if stats == [] then [] else [ChartPoint(stats[0].date, stats[0].revenue, stats[0].orders)] + DailyPoints(stats[1..])
  }

  /** The chart prefers the daily statistics and falls back to grouping the raw orders. */
  function Chart(a: Answers, dayOf: int -> int): seq<ChartPoint> {
    var daily := Safe(a.dailyStats, []);
    if |daily| > 0 then DailyPoints(daily) else ByDayChart(Safe(a.rawOrders, []), dayOf)
  }

  function DashboardSpec(session: Session, a: Answers, dayOf: int -> int): (r: Reply<Dashboard>)
    ensures r.Success? <==> IsAdmin(session)
    ensures r.Failure? ==> r == Failure(401, Unauthorized)
  {
    if !IsAdmin(session) then Failure(401, Unauthorized)
    else
      var revenue := Safe(a.allTimeRevenue, Some(0));
      var allTimeRevenue := if revenue.Some? then revenue.value else 0;
      var rows := Safe(a.revenueByProduct, []);
      var cats := if rows == [] then [] else Safe(a.productCategories, []);
      Success(Dashboard(
        Funnel(Safe(a.pageViews30d, 0), Safe(a.cartsCreated, 0), Safe(a.checkoutStarted, 0), Safe(a.paid30d, 0)),
        allTimeRevenue, AvgOrderValue(allTimeRevenue, Safe(a.allTimeCount, 0)),
        ByRevenueDesc(Entries(Tally(rows, cats).0, Tally(rows, cats).1)),
        Chart(a, dayOf), ChannelStats(Safe(a.channels, [])), TopCustomers(Safe(a.topCustomers, []))))
  }

  method GetDashboard(session: Session, a: Answers, dayOf: int -> int) returns (r: Reply<Dashboard>)
    ensures r == DashboardSpec(session, a, dayOf)
  {
    if !IsAdmin(session) {
      return Failure(401, Unauthorized);
    }
    var revenue := Safe(a.allTimeRevenue, Some(0));
    var allTimeRevenue := if revenue.Some? then revenue.value else 0;
    var rows := Safe(a.revenueByProduct, []);
    var cats := if rows == [] then [] else Safe(a.productCategories, []);
    var byCategory := CategoryRevenue(rows, cats);
    var daily := Safe(a.dailyStats, []);
    var chart;
    if |daily| > 0 {
      chart := DailyPoints(daily);
    } else {
      chart := RevenueByDay(Safe(a.rawOrders, []), dayOf);
    }
    r := Success(Dashboard(
      Funnel(Safe(a.pageViews30d, 0), Safe(a.cartsCreated, 0), Safe(a.checkoutStarted, 0), Safe(a.paid30d, 0)),
      allTimeRevenue, AvgOrderValue(allTimeRevenue, Safe(a.allTimeCount, 0)), byCategory,
      chart, ChannelStats(Safe(a.channels, [])), TopCustomers(Safe(a.topCustomers, []))));
  }

  /** No failing query breaks the dashboard: with every query throwing, an admin still gets it,
      with zero counts and empty lists. */
  lemma {:induction false} EveryQueryFailing(session: Session, dayOf: int -> int)
    requires IsAdmin(session)
    ensures var r := DashboardSpec(session, Answers(None, None, None, None, None, None, None, None, None, None, None, None), dayOf);
            r.Success? &&
            r.body.funnel == [FunnelStep("Visited Store", 0, 100, 0), FunnelStep("Added to Cart", 0, 0, 0),
                              FunnelStep("Started Checkout", 0, 0, 0), FunnelStep("Completed Purchase", 0, 0, 0)] &&
            r.body.allTimeRevenue == 0 && r.body.avgOrderValue == 0 &&
            r.body.revenueByCategory == [] && r.body.revenueChart == [] &&
            r.body.channelStats == [] && r.body.topCustomers == []
  {
    var r := DashboardSpec(session, Answers(None, None, None, None, None, None, None, None, None, None, None, None), dayOf);
    assert Tally([], []) == (map[], []);
    assert DayTally([], dayOf) == (map[], []);
  }
}
