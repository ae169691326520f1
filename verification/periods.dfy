/** The period report: per day or per month of one year, the milk cost
    (stored intake amounts), the expenses, the revenue and the net profit.
    The report keeps one row per period in the order the period first
    appears among the collections, then the expenses, then the sales; the
    period names are never integer-like, so the object's insertion order is
    the order its values come back in. */
module Periods {
  import opened Entities
  import opened Seqs
  import opened Grouping

  datatype PeriodRow = PeriodRow(period: string, milkCost: real, expenses: real, revenue: real, netProfit: real)

  /** What one record contributes to its period's row. */
  datatype Posting = Posting(period: string, milkCost: real, expense: real, revenue: real)

  function PostingPeriod(p: Posting): string { p.period }
  function PostingMilk(p: Posting): real { p.milkCost }
  function PostingExpense(p: Posting): real { p.expense }
  function PostingRevenue(p: Posting): real { p.revenue }

  function MilkPosting(periodOf: int -> string): Collection -> Posting {
    (c: Collection) => Posting(periodOf(c.date), c.totalAmount, 0.0, 0.0)
  }

  function ExpensePosting(periodOf: int -> string): Expense -> Posting {
    (e: Expense) => Posting(periodOf(e.date), 0.0, e.amount, 0.0)
  }

  function SalePosting(periodOf: int -> string): Sale -> Posting {
    (s: Sale) => Posting(periodOf(s.date), 0.0, 0.0, s.totalAmount)
  }

  /** The records' contributions, collections first, then expenses, then sales. */
  function Postings(cs: seq<Collection>, es: seq<Expense>, ss: seq<Sale>, periodOf: int -> string): seq<Posting> {
    Map(cs, MilkPosting(periodOf)) + Map(es, ExpensePosting(periodOf)) + Map(ss, SalePosting(periodOf))
  }

  /** The reference figures for period `k`, straight from the records. */
  function MilkCostOfPeriod(cs: seq<Collection>, periodOf: int -> string, k: string): real {
    SumBy(cs, (c: Collection) => if periodOf(c.date) == k then c.totalAmount else 0.0)
  }

  function ExpensesOfPeriod(es: seq<Expense>, periodOf: int -> string, k: string): real {
    SumBy(es, (e: Expense) => if periodOf(e.date) == k then e.amount else 0.0)
  }

  function RevenueOfPeriod(ss: seq<Sale>, periodOf: int -> string, k: string): real {
    SumBy(ss, (s: Sale) => if periodOf(s.date) == k then s.totalAmount else 0.0)
  }

  function RowMilk(r: PeriodRow): real { r.milkCost }
  function RowExpenses(r: PeriodRow): real { r.expenses }
  function RowRevenue(r: PeriodRow): real { r.revenue }
  function RowCosts(r: PeriodRow): real { r.milkCost + r.expenses }
  function RowNet(r: PeriodRow): real { r.netProfit }

  /** The period names of the records. */
  ghost function PeriodsOf(cs: seq<Collection>, es: seq<Expense>, ss: seq<Sale>, periodOf: int -> string): set<string> {
    (set i | 0 <= i < |cs| :: periodOf(cs[i].date))
    + (set i | 0 <= i < |es| :: periodOf(es[i].date))
    + (set i | 0 <= i < |ss| :: periodOf(ss[i].date))
  }

  /** The window of the year the report covers, `[start, end]` in milliseconds. */
  function YearCollections(cs: seq<Collection>, start: int, end: int): seq<Collection> {
    Filter(cs, (c: Collection) => start <= c.date <= end)
  }

  function YearExpenses(es: seq<Expense>, start: int, end: int): seq<Expense> {
    Filter(es, (e: Expense) => start <= e.date <= end)
  }

  function YearSales(ss: seq<Sale>, start: int, end: int): seq<Sale> {
    Filter(ss, (s: Sale) => start <= s.date <= end)
  }

  /** The three folds side by side, one row per period. */
  function Zip(milk: seq<Group<string>>, exp: seq<Group<string>>, rev: seq<Group<string>>): (r: seq<PeriodRow>)
    requires |exp| == |milk| && |rev| == |milk|
    ensures |r| == |milk|
    ensures forall i :: 0 <= i < |r| ==>
              r[i] == PeriodRow(milk[i].key, milk[i].total, exp[i].total, rev[i].total,
                                rev[i].total - (milk[i].total + exp[i].total))
  {
    seq(|milk|, i requires 0 <= i < |milk| =>
      PeriodRow(milk[i].key, milk[i].total, exp[i].total, rev[i].total,
                rev[i].total - (milk[i].total + exp[i].total)))
  }

  function MilkGroups(cs: seq<Collection>, es: seq<Expense>, ss: seq<Sale>, periodOf: int -> string): seq<Group<string>> {
    GroupFold(Postings(cs, es, ss, periodOf), PostingPeriod, PostingMilk)
  }

  function ExpenseGroups(cs: seq<Collection>, es: seq<Expense>, ss: seq<Sale>, periodOf: int -> string): seq<Group<string>> {
    GroupFold(Postings(cs, es, ss, periodOf), PostingPeriod, PostingExpense)
  }

  function RevenueGroups(cs: seq<Collection>, es: seq<Expense>, ss: seq<Sale>, periodOf: int -> string): seq<Group<string>> {
    GroupFold(Postings(cs, es, ss, periodOf), PostingPeriod, PostingRevenue)
  }

  /** The three folds list the same periods in the same order. */
  lemma GroupsAlign(cs: seq<Collection>, es: seq<Expense>, ss: seq<Sale>, periodOf: int -> string)
    ensures var milk := MilkGroups(cs, es, ss, periodOf);
            && |ExpenseGroups(cs, es, ss, periodOf)| == |milk|
            && |RevenueGroups(cs, es, ss, periodOf)| == |milk|
  {
    var ps := Postings(cs, es, ss, periodOf);
    GroupFoldKeys(ps, PostingPeriod, PostingMilk, PostingExpense);
    GroupFoldKeys(ps, PostingPeriod, PostingMilk, PostingRevenue);
  }

  /** The rows for records already restricted to the year: one per period
      that has any record, each holding exactly that period's figures. */
  function Rows(cs: seq<Collection>, es: seq<Expense>, ss: seq<Sale>, periodOf: int -> string): (r: seq<PeriodRow>)
    ensures forall i, j :: 0 <= i < j < |r| ==> r[i].period != r[j].period
    ensures (set i | 0 <= i < |r| :: r[i].period) == PeriodsOf(cs, es, ss, periodOf)
    ensures forall i :: 0 <= i < |r| ==>
              && r[i].milkCost == MilkCostOfPeriod(cs, periodOf, r[i].period)
              && r[i].expenses == ExpensesOfPeriod(es, periodOf, r[i].period)
              && r[i].revenue == RevenueOfPeriod(ss, periodOf, r[i].period)
              && r[i].netProfit == r[i].revenue - (r[i].milkCost + r[i].expenses)
  {
    GroupsAlign(cs, es, ss, periodOf);
    RowsFacts(cs, es, ss, periodOf);
    Zip(MilkGroups(cs, es, ss, periodOf), ExpenseGroups(cs, es, ss, periodOf), RevenueGroups(cs, es, ss, periodOf))
  }

  lemma RowsFacts(cs: seq<Collection>, es: seq<Expense>, ss: seq<Sale>, periodOf: int -> string)
    ensures |ExpenseGroups(cs, es, ss, periodOf)| == |MilkGroups(cs, es, ss, periodOf)|
    ensures |RevenueGroups(cs, es, ss, periodOf)| == |MilkGroups(cs, es, ss, periodOf)|
    ensures var r := Zip(MilkGroups(cs, es, ss, periodOf), ExpenseGroups(cs, es, ss, periodOf), RevenueGroups(cs, es, ss, periodOf));
            && (forall i, j :: 0 <= i < j < |r| ==> r[i].period != r[j].period)
            && (set i | 0 <= i < |r| :: r[i].period) == PeriodsOf(cs, es, ss, periodOf)
            && forall i :: 0 <= i < |r| ==>
                 && r[i].milkCost == MilkCostOfPeriod(cs, periodOf, r[i].period)
                 && r[i].expenses == ExpensesOfPeriod(es, periodOf, r[i].period)
                 && r[i].revenue == RevenueOfPeriod(ss, periodOf, r[i].period)
  {
    var ps := Postings(cs, es, ss, periodOf);
    var milk := MilkGroups(cs, es, ss, periodOf);
    RowsTotals(cs, es, ss, periodOf);
    GroupFoldFacts(ps, PostingPeriod, PostingMilk);
    PostingKeys(cs, es, ss, periodOf);
    ZipKeys(milk, ExpenseGroups(cs, es, ss, periodOf), RevenueGroups(cs, es, ss, periodOf));
  }

  /** Zipped rows carry the milk groups' keys. */
  lemma ZipKeys(milk: seq<Group<string>>, exp: seq<Group<string>>, rev: seq<Group<string>>)
    requires |exp| == |milk| && |rev| == |milk|
    ensures var r := Zip(milk, exp, rev);
            && (DistinctKeys(milk) ==> forall i, j :: 0 <= i < j < |r| ==> r[i].period != r[j].period)
            && (set i | 0 <= i < |r| :: r[i].period) == KeySet(milk)
  {
    var r := Zip(milk, exp, rev);
    assert (set i | 0 <= i < |r| :: r[i].period) == KeySet(milk) by {
      forall k | k in KeySet(milk) ensures k in (set i | 0 <= i < |r| :: r[i].period) {
        var i :| 0 <= i < |milk| && milk[i].key == k;
        assert r[i].period == k;
      }
    }
  }

  /** Each row holds its period's three figures. */
  lemma RowsTotals(cs: seq<Collection>, es: seq<Expense>, ss: seq<Sale>, periodOf: int -> string)
    ensures |ExpenseGroups(cs, es, ss, periodOf)| == |MilkGroups(cs, es, ss, periodOf)|
    ensures |RevenueGroups(cs, es, ss, periodOf)| == |MilkGroups(cs, es, ss, periodOf)|
    ensures var r := Zip(MilkGroups(cs, es, ss, periodOf), ExpenseGroups(cs, es, ss, periodOf), RevenueGroups(cs, es, ss, periodOf));
            forall i :: 0 <= i < |r| ==>
              && r[i].milkCost == MilkCostOfPeriod(cs, periodOf, r[i].period)
              && r[i].expenses == ExpensesOfPeriod(es, periodOf, r[i].period)
              && r[i].revenue == RevenueOfPeriod(ss, periodOf, r[i].period)
  {
    var ps := Postings(cs, es, ss, periodOf);
    GroupFoldKeys(ps, PostingPeriod, PostingMilk, PostingExpense);
    GroupFoldKeys(ps, PostingPeriod, PostingMilk, PostingRevenue);
    GroupFoldMembers(ps, PostingPeriod, PostingMilk);
    GroupFoldMembers(ps, PostingPeriod, PostingExpense);
    GroupFoldMembers(ps, PostingPeriod, PostingRevenue);
    var r := Zip(MilkGroups(cs, es, ss, periodOf), ExpenseGroups(cs, es, ss, periodOf), RevenueGroups(cs, es, ss, periodOf));
    forall i | 0 <= i < |r|
      ensures r[i].milkCost == MilkCostOfPeriod(cs, periodOf, r[i].period)
      ensures r[i].expenses == ExpensesOfPeriod(es, periodOf, r[i].period)
      ensures r[i].revenue == RevenueOfPeriod(ss, periodOf, r[i].period)
    {
      PostingTotals(cs, es, ss, periodOf, r[i].period);
    }
  }

  /** `getDetailedReports` for the year `[start, end]`, with `periodOf`
      naming a timestamp's day or month: one row per period in which some
      record of the year falls, and no other, holding that period's figures
      over the year's records. */
  function DetailedReport(
    cs: seq<Collection>, es: seq<Expense>, ss: seq<Sale>, periodOf: int -> string, start: int, end: int)
    : (r: seq<PeriodRow>)
    ensures forall i, j :: 0 <= i < j < |r| ==> r[i].period != r[j].period
    ensures (set k | 0 <= k < |r| :: r[k].period)
         == (set i | 0 <= i < |cs| && start <= cs[i].date <= end :: periodOf(cs[i].date))
          + (set i | 0 <= i < |es| && start <= es[i].date <= end :: periodOf(es[i].date))
          + (set i | 0 <= i < |ss| && start <= ss[i].date <= end :: periodOf(ss[i].date))
    ensures forall i :: 0 <= i < |r| ==>
              && r[i].milkCost == MilkCostOfPeriod(YearCollections(cs, start, end), periodOf, r[i].period)
              && r[i].expenses == ExpensesOfPeriod(YearExpenses(es, start, end), periodOf, r[i].period)
              && r[i].revenue == RevenueOfPeriod(YearSales(ss, start, end), periodOf, r[i].period)
              && r[i].netProfit == r[i].revenue - (r[i].milkCost + r[i].expenses)
  {
    YearCollectionPeriods(cs, periodOf, start, end);
    YearExpensePeriods(es, periodOf, start, end);
    YearSalePeriods(ss, periodOf, start, end);
    Rows(YearCollections(cs, start, end), YearExpenses(es, start, end), YearSales(ss, start, end), periodOf)
  }

  lemma YearCollectionPeriods(cs: seq<Collection>, periodOf: int -> string, start: int, end: int)
    ensures var y := YearCollections(cs, start, end);
            ((set i | 0 <= i < |y| :: periodOf(y[i].date))
             == (set i | 0 <= i < |cs| && start <= cs[i].date <= end :: periodOf(cs[i].date)))
  {
    var y := YearCollections(cs, start, end);
    var shown := set i | 0 <= i < |y| :: periodOf(y[i].date);
    var inYear := set i | 0 <= i < |cs| && start <= cs[i].date <= end :: periodOf(cs[i].date);
    forall p | p in shown
      ensures p in inYear
    {
      var m :| 0 <= m < |y| && periodOf(y[m].date) == p;
      var i :| 0 <= i < |cs| && cs[i] == y[m];
    }
    forall p | p in inYear
      ensures p in shown
    {
      var i :| 0 <= i < |cs| && start <= cs[i].date <= end && periodOf(cs[i].date) == p;
      var m :| 0 <= m < |y| && y[m] == cs[i];
    }
  }

  lemma YearExpensePeriods(es: seq<Expense>, periodOf: int -> string, start: int, end: int)
    ensures var y := YearExpenses(es, start, end);
            ((set i | 0 <= i < |y| :: periodOf(y[i].date))
             == (set i | 0 <= i < |es| && start <= es[i].date <= end :: periodOf(es[i].date)))
  {
    var y := YearExpenses(es, start, end);
    var shown := set i | 0 <= i < |y| :: periodOf(y[i].date);
    var inYear := set i | 0 <= i < |es| && start <= es[i].date <= end :: periodOf(es[i].date);
    forall p | p in shown
      ensures p in inYear
    {
      var m :| 0 <= m < |y| && periodOf(y[m].date) == p;
      var i :| 0 <= i < |es| && es[i] == y[m];
    }
    forall p | p in inYear
      ensures p in shown
    {
      var i :| 0 <= i < |es| && start <= es[i].date <= end && periodOf(es[i].date) == p;
      var m :| 0 <= m < |y| && y[m] == es[i];
    }
  }

  lemma YearSalePeriods(ss: seq<Sale>, periodOf: int -> string, start: int, end: int)
    ensures var y := YearSales(ss, start, end);
            ((set i | 0 <= i < |y| :: periodOf(y[i].date))
             == (set i | 0 <= i < |ss| && start <= ss[i].date <= end :: periodOf(ss[i].date)))
  {
    var y := YearSales(ss, start, end);
    var shown := set i | 0 <= i < |y| :: periodOf(y[i].date);
    var inYear := set i | 0 <= i < |ss| && start <= ss[i].date <= end :: periodOf(ss[i].date);
    forall p | p in shown
      ensures p in inYear
    {
      var m :| 0 <= m < |y| && periodOf(y[m].date) == p;
      var i :| 0 <= i < |ss| && ss[i] == y[m];
    }
    forall p | p in inYear
      ensures p in shown
    {
      var i :| 0 <= i < |ss| && start <= ss[i].date <= end && periodOf(ss[i].date) == p;
      var m :| 0 <= m < |y| && y[m] == ss[i];
    }
  }

  /** The postings name exactly the records' periods. */
  lemma PostingKeys(cs: seq<Collection>, es: seq<Expense>, ss: seq<Sale>, periodOf: int -> string)
    ensures RecordKeys(Postings(cs, es, ss, periodOf), PostingPeriod) == PeriodsOf(cs, es, ss, periodOf)
  {
    var ps := Postings(cs, es, ss, periodOf);
    var a, b := |cs|, |cs| + |es|;
    forall k | k in RecordKeys(ps, PostingPeriod)
      ensures k in PeriodsOf(cs, es, ss, periodOf)
    {
      var i :| 0 <= i < |ps| && ps[i].period == k;
      if i < a {
        assert ps[i] == MilkPosting(periodOf)(cs[i]);
      } else if i < b {
        assert ps[i] == ExpensePosting(periodOf)(es[i - a]);
      } else {
        assert ps[i] == SalePosting(periodOf)(ss[i - b]);
      }
    }
    forall k | k in PeriodsOf(cs, es, ss, periodOf)
      ensures k in RecordKeys(ps, PostingPeriod)
    {
      if i :| 0 <= i < |cs| && periodOf(cs[i].date) == k {
        assert PostingPeriod(ps[i]) == k;
      } else if i :| 0 <= i < |es| && periodOf(es[i].date) == k {
        assert PostingPeriod(ps[a + i]) == k;
      } else {
        var i :| 0 <= i < |ss| && periodOf(ss[i].date) == k;
        assert PostingPeriod(ps[b + i]) == k;
      }
    }
  }

  /** A period's posted totals are its records' figures. */
  lemma PostingTotals(cs: seq<Collection>, es: seq<Expense>, ss: seq<Sale>, periodOf: int -> string, k: string)
    ensures KeyTotal(Postings(cs, es, ss, periodOf), PostingPeriod, PostingMilk, k) == MilkCostOfPeriod(cs, periodOf, k)
    ensures KeyTotal(Postings(cs, es, ss, periodOf), PostingPeriod, PostingExpense, k) == ExpensesOfPeriod(es, periodOf, k)
    ensures KeyTotal(Postings(cs, es, ss, periodOf), PostingPeriod, PostingRevenue, k) == RevenueOfPeriod(ss, periodOf, k)
  {
    forall i | 0 <= i < |cs|
      ensures Masked(PostingPeriod, PostingMilk, k)(MilkPosting(periodOf)(cs[i]))
           == (if periodOf(cs[i].date) == k then cs[i].totalAmount else 0.0)
      ensures Masked(PostingPeriod, PostingExpense, k)(MilkPosting(periodOf)(cs[i])) == 0.0
      ensures Masked(PostingPeriod, PostingRevenue, k)(MilkPosting(periodOf)(cs[i])) == 0.0
    {
      var p := MilkPosting(periodOf)(cs[i]);
      assert p == Posting(periodOf(cs[i].date), cs[i].totalAmount, 0.0, 0.0);
      MaskedAt(p, PostingMilk, k);
      MaskedAt(p, PostingExpense, k);
      MaskedAt(p, PostingRevenue, k);
    }
    forall i | 0 <= i < |es|
      ensures Masked(PostingPeriod, PostingMilk, k)(ExpensePosting(periodOf)(es[i])) == 0.0
      ensures Masked(PostingPeriod, PostingExpense, k)(ExpensePosting(periodOf)(es[i]))
           == (if periodOf(es[i].date) == k then es[i].amount else 0.0)
      ensures Masked(PostingPeriod, PostingRevenue, k)(ExpensePosting(periodOf)(es[i])) == 0.0
    {
      var p := ExpensePosting(periodOf)(es[i]);
      assert p == Posting(periodOf(es[i].date), 0.0, es[i].amount, 0.0);
      MaskedAt(p, PostingMilk, k);
      MaskedAt(p, PostingExpense, k);
      MaskedAt(p, PostingRevenue, k);
    }
    forall i | 0 <= i < |ss|
      ensures Masked(PostingPeriod, PostingMilk, k)(SalePosting(periodOf)(ss[i])) == 0.0
      ensures Masked(PostingPeriod, PostingExpense, k)(SalePosting(periodOf)(ss[i])) == 0.0
      ensures Masked(PostingPeriod, PostingRevenue, k)(SalePosting(periodOf)(ss[i]))
           == (if periodOf(ss[i].date) == k then ss[i].totalAmount else 0.0)
    {
      var p := SalePosting(periodOf)(ss[i]);
      assert p == Posting(periodOf(ss[i].date), 0.0, 0.0, ss[i].totalAmount);
      MaskedAt(p, PostingMilk, k);
      MaskedAt(p, PostingExpense, k);
      MaskedAt(p, PostingRevenue, k);
    }
    PostedSum(cs, es, ss, periodOf, Masked(PostingPeriod, PostingMilk, k),
      (c: Collection) => if periodOf(c.date) == k then c.totalAmount else 0.0,
      (e: Expense) => 0.0, (s: Sale) => 0.0);
    PostedSum(cs, es, ss, periodOf, Masked(PostingPeriod, PostingExpense, k),
      (c: Collection) => 0.0,
      (e: Expense) => if periodOf(e.date) == k then e.amount else 0.0, (s: Sale) => 0.0);
    PostedSum(cs, es, ss, periodOf, Masked(PostingPeriod, PostingRevenue, k),
      (c: Collection) => 0.0, (e: Expense) => 0.0,
      (s: Sale) => if periodOf(s.date) == k then s.totalAmount else 0.0);
    SumByZero(cs, (c: Collection) => 0.0);
    SumByZero(es, (e: Expense) => 0.0);
    SumByZero(ss, (s: Sale) => 0.0);
  }

  lemma MaskedAt(p: Posting, amt: Posting -> real, k: string)
    ensures Masked(PostingPeriod, amt, k)(p) == if p.period == k then amt(p) else 0.0
  {
    MaskedApply(PostingPeriod, amt, k, p);
    assert PostingPeriod(p) == p.period;
  }

  /** A sum over the postings splits into sums over the three record lists. */
  lemma PostedSum(
    cs: seq<Collection>, es: seq<Expense>, ss: seq<Sale>, periodOf: int -> string,
    f: Posting -> real, fc: Collection -> real, fe: Expense -> real, fs: Sale -> real)
    requires forall i :: 0 <= i < |cs| ==> fc(cs[i]) == f(MilkPosting(periodOf)(cs[i]))
    requires forall i :: 0 <= i < |es| ==> fe(es[i]) == f(ExpensePosting(periodOf)(es[i]))
    requires forall i :: 0 <= i < |ss| ==> fs(ss[i]) == f(SalePosting(periodOf)(ss[i]))
    ensures SumBy(Postings(cs, es, ss, periodOf), f) == SumBy(cs, fc) + SumBy(es, fe) + SumBy(ss, fs)
  {
    var p, x, s := Map(cs, MilkPosting(periodOf)), Map(es, ExpensePosting(periodOf)), Map(ss, SalePosting(periodOf));
    SumByAppend(p + x, s, f);
    SumByAppend(p, x, f);
    SumByMap(cs, MilkPosting(periodOf), f, fc);
    SumByMap(es, ExpensePosting(periodOf), f, fe);
    SumByMap(ss, SalePosting(periodOf), f, fs);
  }

  /** Across all periods the net profits add up to the year's revenue less
      its milk cost and expenses: no record is lost or counted twice. */
  lemma {:induction false} NetProfitsAddUp(cs: seq<Collection>, es: seq<Expense>, ss: seq<Sale>, periodOf: int -> string)
    ensures var r := Rows(cs, es, ss, periodOf);
            && SumBy(r, RowMilk) == SumBy(cs, StoredAmount)
            && SumBy(r, RowExpenses) == SumBy(es, ExpenseAmount)
            && SumBy(r, RowRevenue) == SumBy(ss, SaleAmount)
            && SumBy(r, RowNet) == SumBy(ss, SaleAmount) - (SumBy(cs, StoredAmount) + SumBy(es, ExpenseAmount))
  {
    var ps := Postings(cs, es, ss, periodOf);
    var milk := MilkGroups(cs, es, ss, periodOf);
    var exp := ExpenseGroups(cs, es, ss, periodOf);
    var rev := RevenueGroups(cs, es, ss, periodOf);
    GroupsAlign(cs, es, ss, periodOf);
    var r := Rows(cs, es, ss, periodOf);
    assert r == Zip(milk, exp, rev);
    GroupFoldFacts(ps, PostingPeriod, PostingMilk);
    GroupFoldFacts(ps, PostingPeriod, PostingExpense);
    GroupFoldFacts(ps, PostingPeriod, PostingRevenue);
    SumByPointwise(r, RowMilk, milk, GroupTotal);
    SumByPointwise(r, RowExpenses, exp, GroupTotal);
    SumByPointwise(r, RowRevenue, rev, GroupTotal);
    PostedSum(cs, es, ss, periodOf, PostingMilk, StoredAmount, (e: Expense) => 0.0, (s: Sale) => 0.0);
    PostedSum(cs, es, ss, periodOf, PostingExpense, (c: Collection) => 0.0, ExpenseAmount, (s: Sale) => 0.0);
    PostedSum(cs, es, ss, periodOf, PostingRevenue, (c: Collection) => 0.0, (e: Expense) => 0.0, SaleAmount);
    SumByZero(cs, (c: Collection) => 0.0);
    SumByZero(es, (e: Expense) => 0.0);
    SumByZero(ss, (s: Sale) => 0.0);
    SumByAdd(r, RowMilk, RowExpenses, RowCosts);
    SumByLinear(r, RowRevenue, RowCosts, RowNet);
  }
}
