/** The dashboard's metrics: totals per table, net profit, sales grouped by platform,
    one bucket per month of the viewed range, and the range itself when every record
    is viewed ("all time"). The records are whatever the four table reads returned. */
module Dashboard {
  import opened Common
  import opened JsValues
  import opened Admin
  import opened YearStore

  /** A row of `sales`, `purchases`, `expenses` or `assets`, reduced to the columns the
      dashboard reads. `date` is `new Date(row.date).getTime()`: None when that is NaN. */
  datatype Record = Record(amount: Value, currentValue: Value, platform: Option<string>,
                           date: Option<int>)

  /** The summed column: `amount`, or `current_value` for assets. */
  datatype Column = Amount | CurrentValue

  function FieldValue(r: Record, c: Column): Value {
    match c
    case Amount => r.amount
    case CurrentValue => r.currentValue
  }

  /** `rows.reduce((sum, r) => sum + (Number(r.column) || 0), 0)`. */
  function Total(rs: seq<Record>, c: Column): (t: real)
    ensures (forall i :: 0 <= i < |rs| ==> NumberOr0(FieldValue(rs[i], c)) >= 0.0) ==> t >= 0.0
    ensures |rs| == 1 ==> t == NumberOr0(FieldValue(rs[0], c))
    decreases |rs|
  {
    if rs == [] then 0.0 else Total(rs[..|rs| - 1], c) + NumberOr0(FieldValue(rs[|rs| - 1], c))
  }

  lemma TotalSnoc(rs: seq<Record>, x: Record, c: Column)
    ensures Total(rs + [x], c) == Total(rs, c) + NumberOr0(FieldValue(x, c))
  {
    assert (rs + [x])[..|rs|] == rs;
  }

  /** A total is additive: splitting the rows anywhere splits the sum. */
  lemma {:induction false} TotalConcat(a: seq<Record>, b: seq<Record>, c: Column)
    ensures Total(a + b, c) == Total(a, c) + Total(b, c)
    decreases |b|
  {
    if b != [] {
      var init, x := b[..|b| - 1], b[|b| - 1];
      assert b == init + [x];
      assert a + b == (a + init) + [x];
      TotalConcat(a, init, c);
      TotalSnoc(a + init, x, c);
      TotalSnoc(init, x, c);
    } else {
      assert a + b == a;
    }
  }

  /** A record whose column is missing or not numeric adds nothing. */
  lemma NonNumericAddsNothing(rs: seq<Record>, x: Record, c: Column)
    requires ToNumber(FieldValue(x, c)).None?
    ensures Total(rs + [x], c) == Total(rs, c)
  {
    TotalSnoc(rs, x, c);
  }

  // ---------------------------------------------------------------- platforms

  /** `s.platform || 'Offline'`. */
  function PlatformKey(p: Option<string>): (k: string)
    ensures k != ""
    ensures p.Some? && p.value != "" ==> k == p.value
    ensures p.None? || p == Some("") ==> k == "Offline"
  {
    if p.Some? && p.value != "" then p.value else "Offline"
  }

  /** The platforms of `sales` in order of first appearance: the key order of
      `platformData`, hence of `Object.entries(platformData)`. */
  function Platforms(sales: seq<Record>): seq<string>
    decreases |sales|
  {
    if sales == [] then []
    else
      var ps := Platforms(sales[..|sales| - 1]);
      var k := PlatformKey(sales[|sales| - 1].platform);
      if k in ps then ps else ps + [k]
  }

  /** The sum of the amounts of the sales grouped under platform `p`. */
  function PlatformTotal(sales: seq<Record>, p: string): real
    decreases |sales|
  {
    if sales == [] then 0.0
    else
      var x := sales[|sales| - 1];
      PlatformTotal(sales[..|sales| - 1], p) + (if PlatformKey(x.platform) == p then NumberOr0(x.amount) else 0.0)
  }

  /** Each platform of `ps` paired with its total over `sales`. */
  function Tally(ps: seq<string>, sales: seq<Record>): (es: seq<(string, real)>)
    ensures |es| == |ps|
    ensures forall i :: 0 <= i < |ps| ==> es[i] == (ps[i], PlatformTotal(sales, ps[i]))
    decreases |ps|
  {
    if ps == [] then []
    else Tally(ps[..|ps| - 1], sales) + [(ps[|ps| - 1], PlatformTotal(sales, ps[|ps| - 1]))]
  }

  /** `platformSales`: one `{name, value}` per platform, in first-appearance order. */
  function PlatformSales(sales: seq<Record>): seq<(string, real)> {
    Tally(Platforms(sales), sales)
  }

  /** `Object.entries(data)` for an object whose keys were inserted in the order `keys`. */
  function Entries(keys: seq<string>, data: map<string, real>): (es: seq<(string, real)>)
    requires forall p :: p in keys ==> p in data
    ensures |es| == |keys|
    ensures forall i :: 0 <= i < |keys| ==> es[i] == (keys[i], data[keys[i]])
    decreases |keys|
  {
    if keys == [] then []
    else Entries(keys[..|keys| - 1], data) + [(keys[|keys| - 1], data[keys[|keys| - 1]])]
  }

  /** What the grouping loop keeps after the sales `done`: `keys` lists their
      platforms in first-appearance order, and `data` holds exactly those keys, each
      with its platform's total so far. */
  ghost predicate Grouped(keys: seq<string>, data: map<string, real>, done: seq<Record>) {
    && keys == Platforms(done)
    && (forall p :: p in data <==> p in keys)
    && (forall p :: p in data ==> data[p] == PlatformTotal(done, p))
  }

  /** One iteration of the grouping loop keeps `Grouped`. */
  lemma GroupStep(keys: seq<string>, data: map<string, real>, done: seq<Record>, x: Record)
    requires Grouped(keys, data, done)
    ensures var platform := PlatformKey(x.platform);
            var sofar := if platform in data then data[platform] else 0.0;
            Grouped(if platform in data then keys else keys + [platform],
                    data[platform := sofar + NumberOr0(x.amount)], done + [x])
  {
    var platform := PlatformKey(x.platform);
    assert (done + [x])[..|done|] == done;
    forall p
      ensures PlatformTotal(done + [x], p)
           == PlatformTotal(done, p) + (if platform == p then NumberOr0(x.amount) else 0.0)
    {
      PlatformTotalSnoc(done, x, p);
    }
    if platform !in data {
      UnlistedPlatformZero(done, platform);
    }
  }

  /** The platform grouping loop: `platformData[platform] = (platformData[platform] || 0) + amount`
      for each sale, then `Object.entries(platformData)`. */
  method GroupByPlatform(sales: seq<Record>) returns (platformSales: seq<(string, real)>)
    ensures platformSales == PlatformSales(sales)
  {
    var platformData: map<string, real> := map[];
    var keys: seq<string> := [];  // the insertion order of platformData's keys
    var i := 0;
    while i < |sales|
      invariant 0 <= i <= |sales|
      invariant Grouped(keys, platformData, sales[..i])
    {
      var platform := PlatformKey(sales[i].platform);
      var sofar := if platform in platformData then platformData[platform] else 0.0;
      GroupStep(keys, platformData, sales[..i], sales[i]);
      if platform !in platformData {
        keys := keys + [platform];
      }
      platformData := platformData[platform := sofar + NumberOr0(sales[i].amount)];
      assert sales[..i + 1] == sales[..i] + [sales[i]];
      i := i + 1;
    }
    assert sales[..i] == sales;
    platformSales := Entries(keys, platformData);
  }

  predicate Distinct(ps: seq<string>) {
    forall i, j :: 0 <= i < j < |ps| ==> ps[i] != ps[j]
  }

  /** Each platform appears once in `platformSales`. */
  lemma {:induction false} PlatformsDistinct(sales: seq<Record>)
    ensures Distinct(Platforms(sales))
    decreases |sales|
  {
    if sales != [] {
      PlatformsDistinct(sales[..|sales| - 1]);
    }
  }

  /** The platform of every sale (Offline when it has none) is listed. */
  lemma {:induction false} SalePlatformListed(sales: seq<Record>, k: nat)
    requires k < |sales|
    ensures PlatformKey(sales[k].platform) in Platforms(sales)
    decreases |sales|
  {
    var init := sales[..|sales| - 1];
    if k < |sales| - 1 {
      assert sales[k] == init[k];
      SalePlatformListed(init, k);
    }
  }

  /** Only platforms of actual sales are listed. */
  lemma {:induction false} ListedPlatformHasSale(sales: seq<Record>, p: string)
    requires p in Platforms(sales)
    ensures exists k :: 0 <= k < |sales| && PlatformKey(sales[k].platform) == p
    decreases |sales|
  {
    var init := sales[..|sales| - 1];
    if p in Platforms(init) {
      ListedPlatformHasSale(init, p);
      var k :| 0 <= k < |init| && PlatformKey(init[k].platform) == p;
      assert sales[k] == init[k];
    } else {
      assert PlatformKey(sales[|sales| - 1].platform) == p;
    }
  }

  lemma PlatformTotalSnoc(sales: seq<Record>, x: Record, p: string)
    ensures PlatformTotal(sales + [x], p)
         == PlatformTotal(sales, p) + (if PlatformKey(x.platform) == p then NumberOr0(x.amount) else 0.0)
  {
    assert (sales + [x])[..|sales|] == sales;
  }

  /** A platform nobody sold on has total 0. */
  lemma {:induction false} UnlistedPlatformZero(sales: seq<Record>, p: string)
    requires p !in Platforms(sales)
    ensures PlatformTotal(sales, p) == 0.0
    decreases |sales|
  {
    if sales != [] {
      UnlistedPlatformZero(sales[..|sales| - 1], p);
    }
  }

  /** The sum of a list of `{name, value}` entries' values. */
  function EntriesSum(es: seq<(string, real)>): real
    decreases |es|
  {
    if es == [] then 0.0 else EntriesSum(es[..|es| - 1]) + es[|es| - 1].1
  }

  lemma EntriesSumSnoc(es: seq<(string, real)>, e: (string, real))
    ensures EntriesSum(es + [e]) == EntriesSum(es) + e.1
  {
    assert (es + [e])[..|es|] == es;
  }

  lemma TallySnocKey(ps: seq<string>, q: string, sales: seq<Record>)
    ensures Tally(ps + [q], sales) == Tally(ps, sales) + [(q, PlatformTotal(sales, q))]
  {
    assert (ps + [q])[..|ps|] == ps;
  }

  /** One more sale raises the tallied sum by its amount exactly when its platform is
      among the (distinct) tallied ones. */
  lemma {:induction false} TallySnocSale(ps: seq<string>, sales: seq<Record>, x: Record)
    requires Distinct(ps)
    ensures EntriesSum(Tally(ps, sales + [x]))
         == EntriesSum(Tally(ps, sales)) + (if PlatformKey(x.platform) in ps then NumberOr0(x.amount) else 0.0)
    decreases |ps|
  {
    if ps != [] {
      var init, q := ps[..|ps| - 1], ps[|ps| - 1];
      assert ps == init + [q];
      assert Distinct(init) by {
        forall i, j | 0 <= i < j < |init| ensures init[i] != init[j] {
          assert init[i] == ps[i] && init[j] == ps[j];
        }
      }
      assert q !in init by {
        forall i | 0 <= i < |init| ensures init[i] != q {
          assert init[i] == ps[i];
        }
      }
      TallySnocSale(init, sales, x);
      TallySnocKey(init, q, sales + [x]);
      TallySnocKey(init, q, sales);
      EntriesSumSnoc(Tally(init, sales + [x]), (q, PlatformTotal(sales + [x], q)));
      EntriesSumSnoc(Tally(init, sales), (q, PlatformTotal(sales, q)));
      PlatformTotalSnoc(sales, x, q);
    }
  }

  /** The platform totals add up to the total of sales: grouping loses and duplicates
      nothing. */
  lemma {:induction false} PlatformSalesSum(sales: seq<Record>)
    ensures EntriesSum(PlatformSales(sales)) == Total(sales, Amount)
    decreases |sales|
  {
    if sales != [] {
      var init, x := sales[..|sales| - 1], sales[|sales| - 1];
      assert sales == init + [x];
      var ps, k := Platforms(init), PlatformKey(x.platform);
      PlatformSalesSum(init);
      PlatformsDistinct(init);
      TallySnocSale(ps, init, x);
      TotalSnoc(init, x, Amount);
      if k !in ps {
        TallySnocKey(ps, k, sales);
        EntriesSumSnoc(Tally(ps, sales), (k, PlatformTotal(sales, k)));
        PlatformTotalSnoc(init, x, k);
        UnlistedPlatformZero(init, k);
      }
    }
  }

  // ---------------------------------------------------------------- months

  /** One month of the range, as `eachMonthOfInterval` yields it: `format(month, 'MMM')`,
      and the timestamps of `startOfMonth(month)` and `endOfMonth(month)`. */
  datatype Month = Month(name: string, start: int, end: int)

  /** `date >= startOfMonth(month) && date <= endOfMonth(month)`; false for an invalid date. */
  predicate InMonth(r: Record, m: Month) {
    r.date.Some? && m.start <= r.date.value <= m.end
  }

  /** `rows.filter(r => InMonth(r, m))`. */
  function InMonthOf(rs: seq<Record>, m: Month): (r: seq<Record>)
    ensures forall x :: x in r ==> x in rs && InMonth(x, m)
    ensures forall x :: x in rs && InMonth(x, m) ==> x in r
    ensures forall x :: multiset(r)[x] == if InMonth(x, m) then multiset(rs)[x] else 0
    ensures |r| <= |rs|
    decreases |rs|
  {
    if rs == [] then []
    else
      assert rs == rs[..|rs| - 1] + [rs[|rs| - 1]];
      var init := InMonthOf(rs[..|rs| - 1], m);
      if InMonth(rs[|rs| - 1], m) then init + [rs[|rs| - 1]] else init
  }

  /** A month's total of `amount` over `rs`. */
  function MonthTotal(rs: seq<Record>, m: Month): real {
    Total(InMonthOf(rs, m), Amount)
  }

  /** A record counts in a month exactly when it is dated inside it. */
  lemma MonthTotalSnoc(rs: seq<Record>, x: Record, m: Month)
    ensures MonthTotal(rs + [x], m) == MonthTotal(rs, m) + (if InMonth(x, m) then NumberOr0(x.amount) else 0.0)
  {
    assert (rs + [x])[..|rs|] == rs;
    if InMonth(x, m) {
      TotalSnoc(InMonthOf(rs, m), x, Amount);
    }
  }

  datatype MonthRow = MonthRow(month: string, sales: real, purchases: real, profit: real)

  function MonthRowOf(m: Month, sales: seq<Record>, purchases: seq<Record>): MonthRow {
    var s := MonthTotal(sales, m);
    var p := MonthTotal(purchases, m);
    MonthRow(m.name, s, p, s - p)
  }

  /** `monthlySales = months.map(...)`. */
  function MonthlySales(months: seq<Month>, sales: seq<Record>, purchases: seq<Record>): (rows: seq<MonthRow>)
    ensures |rows| == |months|
    ensures forall i :: 0 <= i < |months| ==> rows[i] == MonthRowOf(months[i], sales, purchases)
    decreases |months|
  {
    if months == [] then []
    else MonthlySales(months[..|months| - 1], sales, purchases) + [MonthRowOf(months[|months| - 1], sales, purchases)]
  }

  /** Each month's row: its name, its sales and purchases, and profit = sales - purchases. */
  lemma MonthlyRow(months: seq<Month>, sales: seq<Record>, purchases: seq<Record>, i: nat)
    requires i < |months|
    ensures var row := MonthlySales(months, sales, purchases)[i];
            row.month == months[i].name
            && row.sales == Total(InMonthOf(sales, months[i]), Amount)
            && row.purchases == Total(InMonthOf(purchases, months[i]), Amount)
            && row.profit == row.sales - row.purchases
  {
  }

  /** Months as `eachMonthOfInterval` yields them: each later month starts after every
      earlier one has ended. */
  predicate Ascending(months: seq<Month>) {
    forall i, j :: 0 <= i < j < |months| ==> months[i].end < months[j].start
  }

  /** Whether `x` is dated inside one of `months`. */
  predicate InSomeMonth(x: Record, months: seq<Month>) {
    exists i :: 0 <= i < |months| && InMonth(x, months[i])
  }

  /** Every record is dated inside one of the months. */
  predicate Covered(rs: seq<Record>, months: seq<Month>) {
    forall k :: 0 <= k < |rs| ==> InSomeMonth(rs[k], months)
  }

  /** The sum of one column of the monthly rows. */
  function MonthsSum(months: seq<Month>, rs: seq<Record>): real
    decreases |months|
  {
    if months == [] then 0.0 else MonthsSum(months[..|months| - 1], rs) + MonthTotal(rs, months[|months| - 1])
  }

  lemma {:induction false} MonthsSumEmpty(months: seq<Month>)
    ensures MonthsSum(months, []) == 0.0
    decreases |months|
  {
    if months != [] {
      MonthsSumEmpty(months[..|months| - 1]);
    }
  }

  /** Appending a record adds its amount once to the months' sum when it lies in one of
      them, and nothing otherwise. */
  lemma {:induction false} MonthsSumSnoc(months: seq<Month>, rs: seq<Record>, x: Record)
    requires Ascending(months)
    ensures MonthsSum(months, rs + [x])
         == MonthsSum(months, rs) + (if InSomeMonth(x, months) then NumberOr0(x.amount) else 0.0)
    decreases |months|
  {
    if months != [] {
      var init, m := months[..|months| - 1], months[|months| - 1];
      assert Ascending(init) by {
        forall i, j | 0 <= i < j < |init| ensures init[i].end < init[j].start {
          assert init[i] == months[i] && init[j] == months[j];
        }
      }
      MonthsSumSnoc(init, rs, x);
      MonthTotalSnoc(rs, x, m);
      if InSomeMonth(x, init) {
        var i :| 0 <= i < |init| && InMonth(x, init[i]);
        assert init[i] == months[i];
        assert !InMonth(x, m);
        assert InSomeMonth(x, months);
      } else if InMonth(x, m) {
        assert InSomeMonth(x, months);
      } else {
        assert !InSomeMonth(x, months) by {
          forall i | 0 <= i < |months| ensures !InMonth(x, months[i]) {
            if i < |init| {
              assert init[i] == months[i];
            }
          }
        }
      }
    }
  }

  /** With ascending months that cover every record, the monthly sums add up to the
      total: no record is counted twice or lost. */
  lemma {:induction false} MonthsPartitionTotal(months: seq<Month>, rs: seq<Record>)
    requires Ascending(months)
    requires Covered(rs, months)
    ensures MonthsSum(months, rs) == Total(rs, Amount)
    decreases |rs|
  {
    if rs == [] {
      MonthsSumEmpty(months);
    } else {
      var init, x := rs[..|rs| - 1], rs[|rs| - 1];
      assert rs == init + [x];
      assert Covered(init, months) by {
        forall k | 0 <= k < |init| ensures InSomeMonth(init[k], months) {
          assert init[k] == rs[k];
        }
      }
      assert InSomeMonth(x, months);
      MonthsPartitionTotal(months, init);
      MonthsSumSnoc(months, init, x);
      TotalSnoc(init, x, Amount);
    }
  }

  /** The sales column of the monthly rows is the months' sum over sales. */
  lemma {:induction false} SalesColumn(months: seq<Month>, sales: seq<Record>, purchases: seq<Record>)
    ensures SalesSum(MonthlySales(months, sales, purchases)) == MonthsSum(months, sales)
    decreases |months|
  {
    if months != [] {
      var rows := MonthlySales(months, sales, purchases);
      SalesColumn(months[..|months| - 1], sales, purchases);
      assert rows[..|rows| - 1] == MonthlySales(months[..|months| - 1], sales, purchases);
    }
  }

  function SalesSum(rows: seq<MonthRow>): real
    decreases |rows|
  {
    if rows == [] then 0.0 else SalesSum(rows[..|rows| - 1]) + rows[|rows| - 1].sales
  }

  /** Over ascending months that cover every sale, the monthly sales add up to the total
      of sales. */
  lemma MonthlySalesPartition(months: seq<Month>, sales: seq<Record>, purchases: seq<Record>)
    requires Ascending(months)
    requires Covered(sales, months)
    ensures SalesSum(MonthlySales(months, sales, purchases)) == Total(sales, Amount)
  {
    SalesColumn(months, sales, purchases);
    MonthsPartitionTotal(months, sales);
  }

  // ---------------------------------------------------------------- range

  /** The valid dates of `rs`, in order (`rows.map(r => new Date(r.date)).filter(valid)`). */
  function ValidDates(rs: seq<Record>): (ds: seq<int>)
    ensures forall k :: 0 <= k < |rs| && rs[k].date.Some? ==> rs[k].date.value in ds
    ensures forall t :: t in ds ==> exists k :: 0 <= k < |rs| && rs[k].date == Some(t)
    decreases |rs|
  {
    if rs == [] then []
    else
      var init := rs[..|rs| - 1];
      var ds := ValidDates(init);
      assert forall k :: 0 <= k < |init| ==> rs[k] == init[k];
      match rs[|rs| - 1].date
      case Some(t) => ds + [t]
      case None => ds
  }

  /** `Math.min(...ds)`. */
  function Earliest(ds: seq<int>): (m: int)
    requires ds != []
    ensures m in ds
    ensures forall d :: d in ds ==> m <= d
    decreases |ds|
  {
    if |ds| == 1 then ds[0]
    else
      var rest := Earliest(ds[1..]);
      assert forall d :: d in ds ==> d == ds[0] || d in ds[1..];
      if ds[0] <= rest then ds[0] else rest
  }

  /** `Math.max(...ds)`. */
  function Latest(ds: seq<int>): (m: int)
    requires ds != []
    ensures m in ds
    ensures forall d :: d in ds ==> d <= m
    decreases |ds|
  {
    if |ds| == 1 then ds[0]
    else
      var rest := Latest(ds[1..]);
      assert forall d :: d in ds ==> d == ds[0] || d in ds[1..];
      if ds[0] >= rest then ds[0] else rest
  }

  /** The all-time range: from the earliest to the latest valid sale or purchase date,
      or today to today when there is none. */
  function AllTimeRange(sales: seq<Record>, purchases: seq<Record>, today: int): (r: (int, int))
    ensures ValidDates(sales + purchases) == [] ==> r == (today, today)
    ensures ValidDates(sales + purchases) != [] ==>
              r.0 <= r.1
              && r.0 in ValidDates(sales + purchases)
              && r.1 in ValidDates(sales + purchases)
  {
    var ds := ValidDates(sales + purchases);
    if ds != [] then (Earliest(ds), Latest(ds)) else (today, today)
  }

  /** Every valid sale or purchase date lies inside the all-time range. */
  lemma AllTimeRangeCovers(sales: seq<Record>, purchases: seq<Record>, today: int, k: nat)
    requires k < |sales + purchases|
    requires (sales + purchases)[k].date.Some?
    ensures var r := AllTimeRange(sales, purchases, today);
            r.0 <= (sales + purchases)[k].date.value <= r.1
  {
    var ds := ValidDates(sales + purchases);
    assert (sales + purchases)[k].date.value in ds;
  }

  // ---------------------------------------------------------------- metrics

  datatype Metrics = Metrics(totalSales: real, totalPurchases: real, totalExpenses: real,
                             netProfit: real, assetsValue: real, monthlySales: seq<MonthRow>,
                             platformSales: seq<(string, real)>, recentTransactions: seq<Record>)

  /** The metrics of a set of records over the given months: net profit is sales less
      purchases and expenses, the platform totals add up to total sales, there is one
      row per month, and the recent transactions are left empty. */
  function Aggregate(sales: seq<Record>, purchases: seq<Record>, expenses: seq<Record>,
                     assets: seq<Record>, months: seq<Month>): (m: Metrics)
    ensures m.totalSales == Total(sales, Amount) && m.totalPurchases == Total(purchases, Amount)
            && m.totalExpenses == Total(expenses, Amount) && m.assetsValue == Total(assets, CurrentValue)
    ensures m.netProfit == m.totalSales - m.totalPurchases - m.totalExpenses
    ensures EntriesSum(m.platformSales) == m.totalSales
    ensures |m.monthlySales| == |months|
    ensures m.recentTransactions == []
  {
    PlatformSalesSum(sales);
    var totalSales := Total(sales, Amount);
    var totalPurchases := Total(purchases, Amount);
    var totalExpenses := Total(expenses, Amount);
    Metrics(totalSales, totalPurchases, totalExpenses, totalSales - totalPurchases - totalExpenses,
            Total(assets, CurrentValue), MonthlySales(months, sales, purchases),
            PlatformSales(sales), [])
  }

  /** The metric computation after the reads. */
  method ComputeMetrics(sales: seq<Record>, purchases: seq<Record>, expenses: seq<Record>,
                        assets: seq<Record>, months: seq<Month>) returns (m: Metrics)
    ensures m == Aggregate(sales, purchases, expenses, assets, months)
  {
    var totalSales := Total(sales, Amount);
    var totalPurchases := Total(purchases, Amount);
    var totalExpenses := Total(expenses, Amount);
    var assetsValue := Total(assets, CurrentValue);
    var netProfit := totalSales - totalPurchases - totalExpenses;
    var platformSales := GroupByPlatform(sales);
    var monthlySales := MonthlySales(months, sales, purchases);
    m := Metrics(totalSales, totalPurchases, totalExpenses, netProfit, assetsValue,
                 monthlySales, platformSales, []);
  }

  /** The `data` of the four reads (sales, purchases, expenses, assets); None for null. */
  datatype Fetched = Fetched(sales: Option<seq<Record>>, purchases: Option<seq<Record>>,
                             expenses: Option<seq<Record>>, assets: Option<seq<Record>>)

  /** `data || []`. */
  function OrEmpty(data: Option<seq<Record>>): (rs: seq<Record>)
    ensures data.None? ==> rs == []
    ensures data.Some? ==> rs == data.value
  {
    if data.Some? then data.value else []
  }

  /** `fetchDashboardData`: None where it returns before setting any metric (no user,
      or a financial year without dates). `parseDate` is `new Date(...).getTime()` on a
      date string and `eachMonth` is `eachMonthOfInterval`. */
  method FetchDashboardData(user: Option<User>, viewRange: string, financialYear: string,
                            fetched: Fetched, parseDate: string -> int,
                            eachMonth: (int, int) -> seq<Month>, today: int)
    returns (r: Option<Metrics>)
    ensures user.None? ==> r.None?
    ensures user.Some? && viewRange != "all" && FinancialYearDates(financialYear).None? ==> r.None?
    ensures user.Some? && viewRange == "all" ==>
              var sales, purchases := OrEmpty(fetched.sales), OrEmpty(fetched.purchases);
              var range := AllTimeRange(sales, purchases, today);
              r == Some(Aggregate(sales, purchases, OrEmpty(fetched.expenses), OrEmpty(fetched.assets),
                                  eachMonth(range.0, range.1)))
    ensures user.Some? && viewRange != "all" && FinancialYearDates(financialYear).Some? ==>
              var dates := FinancialYearDates(financialYear).value;
              r == Some(Aggregate(OrEmpty(fetched.sales), OrEmpty(fetched.purchases),
                                  OrEmpty(fetched.expenses), OrEmpty(fetched.assets),
                                  eachMonth(parseDate(dates.start), parseDate(dates.end))))
  {
    if user.None? {
      return None;
    }
    var fyStart: int;
    var fyEnd: int;
    if viewRange == "all" {
      var range := AllTimeRange(OrEmpty(fetched.sales), OrEmpty(fetched.purchases), today);
      fyStart, fyEnd := range.0, range.1;
    } else {
      var fyDates := FinancialYearDates(financialYear);
      if fyDates.None? {
        return None;
      }
      fyStart, fyEnd := parseDate(fyDates.value.start), parseDate(fyDates.value.end);
    }
    var m := ComputeMetrics(OrEmpty(fetched.sales), OrEmpty(fetched.purchases),
                            OrEmpty(fetched.expenses), OrEmpty(fetched.assets),
                            eachMonth(fyStart, fyEnd));
    r := Some(m);
  }
}
