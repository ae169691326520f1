/** The accountant's ledger: every procurement, expense and sale inside a
    date window as one debit/credit journal, oldest first, with its totals. */
module Ledger {
  import opened Common
  import opened Entities
  import opened Pricing
  import opened Seqs

  datatype EntryType = Procurement | ExpenseEntry | SaleEntry

  /** A journal line. The description text is left out. */
  datatype Entry = Entry(id: string, date: int, kind: EntryType, debit: real, credit: real)

  datatype Totals = Totals(totalDebit: real, totalCredit: real)

  datatype LedgerReport = LedgerReport(ledger: seq<Entry>, totals: Totals)

  /** A procurement is debited at the rounded quantity times the rate
      recomputed from the farmer's current rates. */
  function ProcurementDebit(j: Joined): real {
    Round(Amount(j.c.quantity, LedgerRate(j.farmer, j.c.fat, j.c.snf)))
  }

  /** Quantity times rate. */
  function Amount(quantity: real, rate: real): real {
    quantity * rate
  }

  function ProcurementEntry(j: Joined): Entry {
    Entry(j.c.id, j.c.date, Procurement, ProcurementDebit(j), 0.0)
  }

  function ExpenseEntryOf(e: Expense): Entry {
    Entry(e.id, e.date, ExpenseEntry, e.amount, 0.0)
  }

  function SaleEntryOf(s: Sale): Entry {
    Entry(s.id, s.date, SaleEntry, 0.0, s.totalAmount)
  }

  function EntryDate(e: Entry): int { e.date }
  function Debit(e: Entry): real { e.debit }
  function Credit(e: Entry): real { e.credit }

  function RowsIn(rows: seq<Joined>, startDay: int, endDay: int): seq<Joined> {
    Filter(rows, (j: Joined) => InWindow(j.c.date, startDay, endDay))
  }

  function ExpensesIn(expenses: seq<Expense>, startDay: int, endDay: int): seq<Expense> {
    Filter(expenses, (e: Expense) => InWindow(e.date, startDay, endDay))
  }

  function SalesIn(sales: seq<Sale>, startDay: int, endDay: int): seq<Sale> {
    Filter(sales, (s: Sale) => InWindow(s.date, startDay, endDay))
  }

  /** The journal before sorting: procurements, then expenses, then sales. */
  function Journal(rows: seq<Joined>, expenses: seq<Expense>, sales: seq<Sale>): seq<Entry> {
    Map(rows, ProcurementEntry) + Map(expenses, ExpenseEntryOf) + Map(sales, SaleEntryOf)
  }

  /** `getLedger`. */
  function GetLedger(
    rows: seq<Joined>, expenses: seq<Expense>, sales: seq<Sale>, startDay: int, endDay: int)
    : (r: LedgerReport)
    ensures var rs := RowsIn(rows, startDay, endDay);
            var es := ExpensesIn(expenses, startDay, endDay);
            var ss := SalesIn(sales, startDay, endDay);
            && multiset(r.ledger) == multiset(Journal(rs, es, ss))
            && |r.ledger| == |rs| + |es| + |ss|
            && r.totals.totalDebit == SumBy(rs, ProcurementDebit) + SumBy(es, ExpenseAmount)
            && r.totals.totalCredit == SumBy(ss, SaleAmount)
    ensures SortedBy(r.ledger, EntryDate)
    ensures forall i :: 0 <= i < |r.ledger| ==>
              var e := r.ledger[i];
              && (e.kind != SaleEntry ==> e.credit == 0.0)
              && (e.kind == SaleEntry ==> e.debit == 0.0)
              && (e.kind == Procurement ==> e.debit == e.debit.Floor as real)
  {
    var rs := RowsIn(rows, startDay, endDay);
    var es := ExpensesIn(expenses, startDay, endDay);
    var ss := SalesIn(sales, startDay, endDay);
    var journal := Journal(rs, es, ss);
    var ledger := SortBy(journal, EntryDate);
    JournalTotals(rs, es, ss);
    SumBySortBy(journal, EntryDate, Debit);
    SumBySortBy(journal, EntryDate, Credit);
    JournalKinds(rs, es, ss, ledger);
    LedgerReport(ledger, Totals(SumBy(ledger, Debit), SumBy(ledger, Credit)))
  }

  /** The journal's debits are the procurement and expense amounts, its
      credits the sale amounts. */
  lemma JournalTotals(rs: seq<Joined>, es: seq<Expense>, ss: seq<Sale>)
    ensures SumBy(Journal(rs, es, ss), Debit) == SumBy(rs, ProcurementDebit) + SumBy(es, ExpenseAmount)
    ensures SumBy(Journal(rs, es, ss), Credit) == SumBy(ss, SaleAmount)
  {
    var p, x, s := Map(rs, ProcurementEntry), Map(es, ExpenseEntryOf), Map(ss, SaleEntryOf);
    SumByAppend(p + x, s, Debit);
    SumByAppend(p, x, Debit);
    SumByAppend(p + x, s, Credit);
    SumByAppend(p, x, Credit);
    SumByMap(rs, ProcurementEntry, Debit, ProcurementDebit);
    SumByMap(es, ExpenseEntryOf, Debit, ExpenseAmount);
    SumByMap(ss, SaleEntryOf, Debit, (t: Sale) => 0.0);
    SumByZero(ss, (t: Sale) => 0.0);
    SumByMap(rs, ProcurementEntry, Credit, (j: Joined) => 0.0);
    SumByZero(rs, (j: Joined) => 0.0);
    SumByMap(es, ExpenseEntryOf, Credit, (e: Expense) => 0.0);
    SumByZero(es, (e: Expense) => 0.0);
    SumByMap(ss, SaleEntryOf, Credit, SaleAmount);
  }

  /** Every line of a reordering of the journal is built by one of the three constructors. */
  lemma JournalKinds(rs: seq<Joined>, es: seq<Expense>, ss: seq<Sale>, ledger: seq<Entry>)
    requires multiset(ledger) == multiset(Journal(rs, es, ss))
    ensures forall i :: 0 <= i < |ledger| ==>
              var e := ledger[i];
              && (e.kind != SaleEntry ==> e.credit == 0.0)
              && (e.kind == SaleEntry ==> e.debit == 0.0)
              && (e.kind == Procurement ==> e.debit == e.debit.Floor as real)
  {
    var journal := Journal(rs, es, ss);
    forall i | 0 <= i < |ledger|
      ensures ledger[i].kind != SaleEntry ==> ledger[i].credit == 0.0
      ensures ledger[i].kind == SaleEntry ==> ledger[i].debit == 0.0
      ensures ledger[i].kind == Procurement ==> ledger[i].debit == ledger[i].debit.Floor as real
    {
      assert ledger[i] in multiset(journal);
      var k :| 0 <= k < |journal| && journal[k] == ledger[i];
      if k < |rs| {
        assert journal[k] == ProcurementEntry(rs[k]);
      } else if k < |rs| + |es| {
        assert journal[k] == ExpenseEntryOf(es[k - |rs|]);
      } else {
        assert journal[k] == SaleEntryOf(ss[k - |rs| - |es|]);
      }
    }
  }

  /** Every collection inside the window has its procurement line in the ledger. */
  lemma ProcurementsListed(
    rows: seq<Joined>, expenses: seq<Expense>, sales: seq<Sale>, startDay: int, endDay: int, i: nat)
    requires i < |rows| && InWindow(rows[i].c.date, startDay, endDay)
    ensures ProcurementEntry(rows[i]) in GetLedger(rows, expenses, sales, startDay, endDay).ledger
  {
    var rs := RowsIn(rows, startDay, endDay);
    var es := ExpensesIn(expenses, startDay, endDay);
    var ss := SalesIn(sales, startDay, endDay);
    assert rows[i] in rs;
    ProcurementInJournal(rs, es, ss, rows[i]);
    InReordering(Journal(rs, es, ss), GetLedger(rows, expenses, sales, startDay, endDay).ledger, ProcurementEntry(rows[i]));
  }

  /** Every expense inside the window has its line in the ledger. */
  lemma ExpensesListed(
    rows: seq<Joined>, expenses: seq<Expense>, sales: seq<Sale>, startDay: int, endDay: int, i: nat)
    requires i < |expenses| && InWindow(expenses[i].date, startDay, endDay)
    ensures ExpenseEntryOf(expenses[i]) in GetLedger(rows, expenses, sales, startDay, endDay).ledger
  {
    var rs := RowsIn(rows, startDay, endDay);
    var es := ExpensesIn(expenses, startDay, endDay);
    var ss := SalesIn(sales, startDay, endDay);
    assert expenses[i] in es;
    ExpenseInJournal(rs, es, ss, expenses[i]);
    InReordering(Journal(rs, es, ss), GetLedger(rows, expenses, sales, startDay, endDay).ledger, ExpenseEntryOf(expenses[i]));
  }

  /** Every sale inside the window has its line in the ledger. */
  lemma SalesListed(
    rows: seq<Joined>, expenses: seq<Expense>, sales: seq<Sale>, startDay: int, endDay: int, i: nat)
    requires i < |sales| && InWindow(sales[i].date, startDay, endDay)
    ensures SaleEntryOf(sales[i]) in GetLedger(rows, expenses, sales, startDay, endDay).ledger
  {
    var rs := RowsIn(rows, startDay, endDay);
    var es := ExpensesIn(expenses, startDay, endDay);
    var ss := SalesIn(sales, startDay, endDay);
    assert sales[i] in ss;
    SaleInJournal(rs, es, ss, sales[i]);
    InReordering(Journal(rs, es, ss), GetLedger(rows, expenses, sales, startDay, endDay).ledger, SaleEntryOf(sales[i]));
  }

  lemma ProcurementInJournal(rs: seq<Joined>, es: seq<Expense>, ss: seq<Sale>, x: Joined)
    requires x in rs
    ensures ProcurementEntry(x) in Journal(rs, es, ss)
  {
    var k :| 0 <= k < |rs| && rs[k] == x;
    assert Journal(rs, es, ss)[k] == ProcurementEntry(x);
  }

  lemma ExpenseInJournal(rs: seq<Joined>, es: seq<Expense>, ss: seq<Sale>, x: Expense)
    requires x in es
    ensures ExpenseEntryOf(x) in Journal(rs, es, ss)
  {
    var k :| 0 <= k < |es| && es[k] == x;
    assert Journal(rs, es, ss)[|rs| + k] == ExpenseEntryOf(x);
  }

  lemma SaleInJournal(rs: seq<Joined>, es: seq<Expense>, ss: seq<Sale>, x: Sale)
    requires x in ss
    ensures SaleEntryOf(x) in Journal(rs, es, ss)
  {
    var k :| 0 <= k < |ss| && ss[k] == x;
    assert Journal(rs, es, ss)[|rs| + |es| + k] == SaleEntryOf(x);
  }

  /** A reordering keeps every element. */
  lemma InReordering(journal: seq<Entry>, l: seq<Entry>, e: Entry)
    requires multiset(l) == multiset(journal) && e in journal
    ensures e in l
  {
    assert e in multiset(l);
  }

  /** The ledger recomputes the rate from the farmer's current rates: when
      those are the rates the intake was priced with, a procurement's debit
      is the stored amount rounded to a whole rupee. */
  lemma DebitMatchesStoredWhenRatesUnchanged(j: Joined)
    requires PricedWith(j.c, j.farmer)
    ensures ProcurementDebit(j) == Round(j.c.totalAmount)
  {
    StatsAndLedgerAgreeWithRule(j.farmer, j.c.fat, j.c.snf);
    assert Amount(j.c.quantity, j.c.rate) == j.c.totalAmount;
  }

  /** A change of a fixed-rate farmer's rate after the intake, by at least
      a rupee's worth on that intake's quantity, changes the ledger's debit,
      while the stored amount stays what it was. */
  lemma RateChangeShowsInLedger(c: Collection, f: Farmer, d: real)
    requires f.rateType != FatSnf && f.rateType != FatOnly
    requires PricedWith(c, f)
    requires c.quantity * d >= 1.0 || c.quantity * d <= -1.0
    ensures ProcurementDebit(Joined(c, f.(fixedRate := f.fixedRate + d))) != Round(c.totalAmount)
  {
    var g := f.(fixedRate := f.fixedRate + d);
    assert LedgerRate(g, c.fat, c.snf) == f.fixedRate + d;
    assert c.totalAmount == Amount(c.quantity, f.fixedRate);
    assert Amount(c.quantity, f.fixedRate + d) == c.totalAmount + c.quantity * d;
    RoundShift(c.totalAmount, c.quantity * d);
  }

  /** Moving an amount by a whole unit or more always moves its rounding. */
  lemma RoundShift(x: real, e: real)
    requires e >= 1.0 || e <= -1.0
    ensures Round(x + e) != Round(x)
  {
  }
}
