/** The main dashboard statistics (`getStats`): milk volume split by milk
    type, average quality, the cost of the period's milk, profit, pending
    farmer payments, distinct suppliers and per-day volume buckets. The date
    range itself comes from the host clock and is taken as given: `rows`,
    `sales` and `expenses` are the records already inside it. */
module Dashboard {
  import opened Common
  import opened Entities
  import opened Pricing
  import opened Seqs
  import opened Grouping

  const Cow: string := "COW"

  datatype MilkStats = MilkStats(
    totalLiters: real,
    totalCost: real,
    avgFat: real,
    avgSnf: real,
    cowLiters: real,
    buffaloLiters: real,
    farmerCount: nat)

  datatype FinanceStats = FinanceStats(revenue: real, expenses: real, netProfit: real, pendingPayments: real)

  datatype StockLine = StockLine(name: string, stock: real, unit: Option<string>)

  /** `trends` holds one group per UTC day number, with the litres collected that day. */
  datatype Stats = Stats(milk: MilkStats, finance: FinanceStats, inventory: seq<StockLine>, trends: seq<Group<int>>)

  /** Every farmer whose milk type is not exactly `COW` counts as buffalo. */
  predicate IsCow(j: Joined) {
    j.farmer.milkType == Cow
  }

  /** A row's litres. */
  function Liters(j: Joined): real {
    j.c.quantity
  }

  /** A row's UTC day, `date.toISOString().split('T')[0]`. */
  function Day(j: Joined): int {
    DayOf(j.c.date)
  }

  function TotalLiters(rows: seq<Joined>): real {
    SumBy(rows, Liters)
  }

  function CowLiters(rows: seq<Joined>): real {
    SumBy(rows, (j: Joined) => if IsCow(j) then j.c.quantity else 0.0)
  }

  function BuffaloLiters(rows: seq<Joined>): real {
    SumBy(rows, (j: Joined) => if IsCow(j) then 0.0 else j.c.quantity)
  }

  /** Every record lands in exactly one of the two buckets. */
  lemma {:induction false} VolumeSplit(rows: seq<Joined>)
    ensures TotalLiters(rows) == CowLiters(rows) + BuffaloLiters(rows)
    decreases |rows|
  {
    if |rows| > 0 {
      VolumeSplit(rows[1..]);
    }
  }

  /** The records that carry a fat reading; only they enter the averages. */
  function Graded(rows: seq<Joined>): seq<Joined> {
    Filter(rows, (j: Joined) => j.c.fat > 0.0)
  }

  /** An unweighted mean, zero for no records. */
  function Mean<T>(s: seq<T>, f: T -> real): (r: real)
    ensures |s| == 0 ==> r == 0.0
    ensures (forall i :: 0 <= i < |s| ==> f(s[i]) > 0.0) && |s| > 0 ==> r > 0.0
  {
    if |s| > 0 then
      PositiveSumIf(s, f);
      SumBy(s, f) / (|s| as real)
    else 0.0
  }

  /** A sum of values none above `hi` is at most count times `hi`. */
  lemma {:induction false} SumAtMost<T>(s: seq<T>, f: T -> real, hi: real)
    requires forall i :: 0 <= i < |s| ==> f(s[i]) <= hi
    ensures SumBy(s, f) <= (|s| as real) * hi
    decreases |s|
  {
    if |s| > 0 {
      assert forall i :: 0 <= i < |s[1..]| ==> s[1..][i] == s[i + 1];
      SumAtMost(s[1..], f, hi);
      assert (|s| as real) * hi == ((|s| - 1) as real) * hi + hi;
    }
  }

  /** A sum of values none below `lo` is at least count times `lo`. */
  lemma {:induction false} SumAtLeast<T>(s: seq<T>, f: T -> real, lo: real)
    requires forall i :: 0 <= i < |s| ==> f(s[i]) >= lo
    ensures SumBy(s, f) >= (|s| as real) * lo
    decreases |s|
  {
    if |s| > 0 {
      assert forall i :: 0 <= i < |s[1..]| ==> s[1..][i] == s[i + 1];
      SumAtLeast(s[1..], f, lo);
      assert (|s| as real) * lo == ((|s| - 1) as real) * lo + lo;
    }
  }

  lemma PositiveSumIf<T>(s: seq<T>, f: T -> real)
    ensures (|s| > 0 && forall i :: 0 <= i < |s| ==> f(s[i]) > 0.0) ==> SumBy(s, f) > 0.0
  {
    if |s| > 0 && forall i :: 0 <= i < |s| ==> f(s[i]) > 0.0 {
      SumPositive(s, f);
    }
  }

  /** A non-empty sum of positive values is positive. */
  lemma {:induction false} SumPositive<T>(s: seq<T>, f: T -> real)
    requires |s| > 0 && forall i :: 0 <= i < |s| ==> f(s[i]) > 0.0
    ensures SumBy(s, f) > 0.0
    decreases |s|
  {
    assert forall i :: 0 <= i < |s[1..]| ==> s[1..][i] == s[i + 1];
    if |s| > 1 {
      SumPositive(s[1..], f);
    }
  }

  /** A mean lies between any bounds on the values it averages. */
  lemma MeanBounds<T>(s: seq<T>, f: T -> real, lo: real, hi: real)
    requires |s| > 0
    requires forall i :: 0 <= i < |s| ==> lo <= f(s[i]) <= hi
    ensures lo <= Mean(s, f) <= hi
  {
    SumAtMost(s, f, hi);
    SumAtLeast(s, f, lo);
    var n := |s| as real;
    assert SumBy(s, f) / n <= hi by {
      assert SumBy(s, f) <= n * hi;
    }
    assert SumBy(s, f) / n >= lo by {
      assert SumBy(s, f) >= n * lo;
    }
  }

  function AvgFat(rows: seq<Joined>): real {
    Mean(Graded(rows), (j: Joined) => j.c.fat)
  }

  /** SNF is averaged over the records with a fat reading, whatever their SNF. */
  function AvgSnf(rows: seq<Joined>): real {
    Mean(Graded(rows), (j: Joined) => j.c.snf)
  }

  /** The fat average is positive exactly when some record has a fat reading. */
  lemma AvgFatPositive(rows: seq<Joined>)
    ensures AvgFat(rows) > 0.0 <==> exists i :: 0 <= i < |rows| && rows[i].c.fat > 0.0
  {
    var g := Graded(rows);
    if exists i :: 0 <= i < |rows| && rows[i].c.fat > 0.0 {
      var i :| 0 <= i < |rows| && rows[i].c.fat > 0.0;
      assert rows[i] in g;
    } else {
      assert |g| == 0;
    }
  }

  /** The fat average lies within any bounds on the non-zero fat readings. */
  lemma AvgFatWithinReadings(rows: seq<Joined>, lo: real, hi: real)
    requires exists i :: 0 <= i < |rows| && rows[i].c.fat > 0.0
    requires forall i :: 0 <= i < |rows| && rows[i].c.fat > 0.0 ==> lo <= rows[i].c.fat <= hi
    ensures lo <= AvgFat(rows) <= hi
  {
    var g := Graded(rows);
    var i :| 0 <= i < |rows| && rows[i].c.fat > 0.0;
    assert rows[i] in g;
    forall k | 0 <= k < |g|
      ensures lo <= g[k].c.fat <= hi
    {
      var m :| 0 <= m < |rows| && rows[m] == g[k];
    }
    MeanBounds(g, (j: Joined) => j.c.fat, lo, hi);
  }

  /** A record without a fat reading changes neither average. */
  lemma UngradedRecordIgnored(x: Joined, rows: seq<Joined>)
    requires x.c.fat <= 0.0
    ensures AvgFat([x] + rows) == AvgFat(rows)
    ensures AvgSnf([x] + rows) == AvgSnf(rows)
  {
    assert ([x] + rows)[1..] == rows;
  }

  /** Cost of the period's milk, each record priced afresh with the rule. */
  function MilkCost(rows: seq<Joined>): real {
    SumBy(rows, (j: Joined) => j.c.quantity * StatsRate(j.farmer, j.c.fat, j.c.snf))
  }

  /** Cost of all milk ever collected, with missing readings back-filled by the defaults. */
  function LifetimeMilkCost(all: seq<Joined>): real {
    SumBy(all, (j: Joined) => j.c.quantity * LifetimeRate(j.farmer, j.c.fat, j.c.snf))
  }

  /** A row priced at intake with its farmer's current configuration. */
  predicate PricedAtIntake(j: Joined) {
    PricedWith(j.c, j.farmer)
  }

  /** When no farmer's configuration changed since intake, re-pricing the
      period's milk gives back the stored amounts. */
  lemma {:induction false} MilkCostMatchesStored(rows: seq<Joined>)
    requires forall i :: 0 <= i < |rows| ==> PricedAtIntake(rows[i])
    ensures MilkCost(rows) == SumBy(rows, (j: Joined) => j.c.totalAmount)
  {
    forall i | 0 <= i < |rows|
      ensures rows[i].c.quantity * StatsRate(rows[i].farmer, rows[i].c.fat, rows[i].c.snf) == rows[i].c.totalAmount
    {
      StatsAndLedgerAgreeWithRule(rows[i].farmer, rows[i].c.fat, rows[i].c.snf);
    }
    SumByCongruent(rows, (j: Joined) => j.c.quantity * StatsRate(j.farmer, j.c.fat, j.c.snf),
                         (j: Joined) => j.c.totalAmount);
  }

  /** Prisma's `_sum`: NULL over no rows. */
  function AggregateSum<T>(s: seq<T>, f: T -> real): (r: Option<real>)
    ensures r.None? <==> |s| == 0
  {
    if |s| == 0 then None else Some(SumBy(s, f))
  }

  /** `_sum.x || 0` is the plain sum, zero for no rows. */
  lemma AggregateOrZero<T>(s: seq<T>, f: T -> real)
    ensures OrZero(AggregateSum(s, f)) == SumBy(s, f)
  {
  }

  /** `new Set(collections.map(c => c.farmerId)).size`. */
  function FarmerCount(rows: seq<Joined>): (r: nat)
    ensures r <= |rows|
    ensures r == 0 <==> |rows| == 0
  {
    ImageBound(rows);
    |FarmerIds(rows)|
  }

  function FarmerIds(rows: seq<Joined>): set<string> {
    set i | 0 <= i < |rows| :: rows[i].c.farmerId
  }

  lemma {:induction false} ImageBound(rows: seq<Joined>)
    ensures |FarmerIds(rows)| <= |rows|
    ensures |rows| > 0 ==> |FarmerIds(rows)| > 0
    decreases |rows|
  {
    if |rows| > 0 {
      assert rows[0].c.farmerId in FarmerIds(rows);
      var init := rows[..|rows| - 1];
      ImageBound(init);
      assert FarmerIds(rows) == FarmerIds(init) + {rows[|rows| - 1].c.farmerId} by {
        forall x | x in FarmerIds(rows)
          ensures x in FarmerIds(init) + {rows[|rows| - 1].c.farmerId}
        {
          var i :| 0 <= i < |rows| && rows[i].c.farmerId == x;
          if i < |rows| - 1 { assert init[i] == rows[i]; }
        }
        forall x | x in FarmerIds(init)
          ensures x in FarmerIds(rows)
        {
          var i :| 0 <= i < |init| && init[i].c.farmerId == x;
          assert rows[i] == init[i];
        }
      }
      var x := rows[|rows| - 1].c.farmerId;
      if x in FarmerIds(init) {
        assert FarmerIds(init) + {x} == FarmerIds(init);
      } else {
        assert |FarmerIds(init) + {x}| == |FarmerIds(init)| + 1;
      }
    }
  }

  /** The per-day volume buckets, in order of the first record of each day. */
  function Trends(rows: seq<Joined>): seq<Group<int>> {
    GroupFold(rows, Day, Liters)
  }

  /** One bucket per day that has records, each holding that day's litres,
      and together all the period's litres. */
  lemma TrendsFacts(rows: seq<Joined>)
    ensures DistinctKeys(Trends(rows))
    ensures KeySet(Trends(rows)) == RecordKeys(rows, Day)
    ensures forall k :: 0 <= k < |Trends(rows)| ==>
              Trends(rows)[k].total == KeyTotal(rows, Day, Liters, Trends(rows)[k].key)
    ensures SumBy(Trends(rows), GroupTotal) == TotalLiters(rows)
  {
    GroupFoldFacts(rows, Day, Liters);
    GroupFoldMembers(rows, Day, Liters);
  }

  function Inventory(products: seq<Product>): (r: seq<StockLine>)
    ensures |r| == |products|
    ensures forall i :: 0 <= i < |r| ==>
              r[i] == StockLine(products[i].name, products[i].stock, products[i].unit)
  {
    seq(|products|, i requires 0 <= i < |products| =>
      StockLine(products[i].name, products[i].stock, products[i].unit))
  }

  /** `getStats`. `rows`, `sales` and `expenses` are the period's records;
      `allMilk` and `advances` are every collection and advance ever stored. */
  function GetStats(
    rows: seq<Joined>, sales: seq<Sale>, expenses: seq<Expense>,
    allMilk: seq<Joined>, advances: seq<Advance>, products: seq<Product>)
    : (r: Stats)
    ensures r.milk.totalLiters == TotalLiters(rows)
    ensures r.milk.cowLiters == CowLiters(rows) && r.milk.buffaloLiters == BuffaloLiters(rows)
    ensures r.milk.totalLiters == r.milk.cowLiters + r.milk.buffaloLiters
    ensures r.milk.farmerCount == |FarmerIds(rows)|
    ensures r.milk.farmerCount <= |rows|
    ensures r.milk.farmerCount == 0 <==> |rows| == 0
    ensures r.milk.avgFat == AvgFat(rows) && r.milk.avgSnf == AvgSnf(rows)
    ensures r.milk.avgFat > 0.0 <==> exists i :: 0 <= i < |rows| && rows[i].c.fat > 0.0
    ensures r.milk.totalCost == r.milk.totalCost.Floor as real
    ensures r.milk.totalCost - 0.5 <= MilkCost(rows) < r.milk.totalCost + 0.5
    ensures r.finance.revenue == SumBy(sales, (s: Sale) => s.totalAmount)
    ensures r.finance.expenses == SumBy(expenses, (e: Expense) => e.amount)
    ensures var exact := r.finance.revenue - (MilkCost(rows) + r.finance.expenses);
            r.finance.netProfit == r.finance.netProfit.Floor as real
            && r.finance.netProfit - 0.5 <= exact < r.finance.netProfit + 0.5
    ensures var exact := LifetimeMilkCost(allMilk) - SumBy(advances, (a: Advance) => a.amount);
            r.finance.pendingPayments == r.finance.pendingPayments.Floor as real
            && r.finance.pendingPayments - 0.5 <= exact < r.finance.pendingPayments + 0.5
    ensures DistinctKeys(r.trends)
    ensures KeySet(r.trends) == RecordKeys(rows, Day)
    ensures forall k :: 0 <= k < |r.trends| ==>
              r.trends[k].total == KeyTotal(rows, Day, Liters, r.trends[k].key)
    ensures SumBy(r.trends, GroupTotal) == r.milk.totalLiters
    ensures |r.inventory| == |products|
    ensures forall i :: 0 <= i < |r.inventory| ==>
              r.inventory[i] == StockLine(products[i].name, products[i].stock, products[i].unit)
  {
    VolumeSplit(rows);
    TrendsFacts(rows);
    AvgFatPositive(rows);
    AggregateOrZero(sales, (s: Sale) => s.totalAmount);
    AggregateOrZero(expenses, (e: Expense) => e.amount);
    AggregateOrZero(advances, (a: Advance) => a.amount);
    var totalMilkCost := MilkCost(rows);
    var revenue := OrZero(AggregateSum(sales, (s: Sale) => s.totalAmount));
    var expense := OrZero(AggregateSum(expenses, (e: Expense) => e.amount));
    var netProfit := revenue - (totalMilkCost + expense);
    var pending := LifetimeMilkCost(allMilk) - OrZero(AggregateSum(advances, (a: Advance) => a.amount));
    Stats(
      MilkStats(TotalLiters(rows), Round(totalMilkCost), AvgFat(rows), AvgSnf(rows),
                CowLiters(rows), BuffaloLiters(rows), FarmerCount(rows)),
      FinanceStats(revenue, expense, Round(netProfit), Round(pending)),
      Inventory(products),
      Trends(rows))
  }
}
