/** The accountant's report screen: the net balance above the ledger, and
    the ledger paged twenty rows at a time. */
module ReportsView {
  import opened Common
  import opened Seqs
  import opened Paging
  import opened Entities
  import opened Ledger

  const RowsPerPage: nat := 20

  /** `netBalance`: credits less debits. */
  function NetBalance(t: Totals): real {
    t.totalCredit - t.totalDebit
  }

  /** The balance shown is the window's sales less its procurement debits and expenses. */
  lemma BalanceIsSalesLessCosts(
    rows: seq<Entities.Joined>, expenses: seq<Entities.Expense>, sales: seq<Entities.Sale>, startDay: int, endDay: int)
    ensures NetBalance(GetLedger(rows, expenses, sales, startDay, endDay).totals)
         == SumBy(SalesIn(sales, startDay, endDay), SaleAmount)
            - (SumBy(RowsIn(rows, startDay, endDay), ProcurementDebit)
               + SumBy(ExpensesIn(expenses, startDay, endDay), ExpenseAmount))
  {
  }

  /** The screen: the ledger it fetched and the page it shows. */
  datatype View = View(ledger: seq<Entry>, page: int)

  function CurrentRows(v: View): (r: seq<Entry>)
    ensures |r| <= RowsPerPage
    ensures v.page >= 1 ==> forall i :: 0 <= i < |r| ==>
              (v.page - 1) * RowsPerPage + i < |v.ledger| && r[i] == v.ledger[(v.page - 1) * RowsPerPage + i]
  {
    PageRows(v.ledger, v.page, RowsPerPage)
  }

  function PageCount(v: View): nat {
    TotalPages(|v.ledger|, RowsPerPage)
  }

  /** A fetch replaces the ledger and returns to page 1. */
  function Loaded(ledger: seq<Entry>): (r: View)
    ensures r.ledger == ledger && r.page == 1
  {
    View(ledger, 1)
  }

  function Next(v: View): View {
    v.(page := NextPage(v.page, PageCount(v)))
  }

  function Prev(v: View): View {
    v.(page := PrevPage(v.page))
  }

  predicate PageValid(v: View) {
    1 <= v.page <= Max(1, PageCount(v))
  }

  /** Loading and both buttons keep the page between 1 and the last page (1 when empty). */
  lemma ActionsKeepPageValid(v: View, ledger: seq<Entry>)
    requires PageValid(v)
    ensures PageValid(Loaded(ledger))
    ensures PageValid(Next(v))
    ensures PageValid(Prev(v))
  {
    GuardedPagerStaysInRange(v.page, PageCount(v));
  }

  /** The "Showing a-b of n" label counts exactly the rows on a page that exists. */
  lemma LabelCountsRows(v: View)
    requires 1 <= v.page <= PageCount(v)
    ensures ShowingLast(v.page, RowsPerPage, |v.ledger|) - ShowingFirst(v.page, RowsPerPage) + 1 == |CurrentRows(v)|
  {
    ShowingCountsRows(v.ledger, v.page, RowsPerPage);
  }
}
