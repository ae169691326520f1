/** The farmer settlement statement: the farmer's collections inside a
    date window, their stored amounts summed, and every advance the farmer
    ever took deducted. */
module Settlement {
  import opened Common
  import opened Entities
  import opened Seqs

  datatype Summary = Summary(totalQty: real, grossAmount: real, advanceDeducted: real, netPayable: real)

  datatype Statement = Statement(transactions: seq<Collection>, summary: Summary)

  /** The farmer filter of the query. A missing `farmerId` leaves the ORM's
      `where` without a farmer condition, so every farmer matches. */
  predicate ForFarmer(farmerId: Option<string>, recordFarmer: string) {
    farmerId.None? || farmerId.value == recordFarmer
  }

  predicate Selected(c: Collection, farmerId: Option<string>, startDay: int, endDay: int) {
    ForFarmer(farmerId, c.farmerId) && InWindow(c.date, startDay, endDay)
  }

  /** `Number(x) || 0` on a stored number. */
  function NumberOrZero(x: real): real {
    OrIfZero(x, 0.0)
  }

  /** The records the statement lists, in store order. */
  function Selection(db: seq<Collection>, farmerId: Option<string>, startDay: int, endDay: int): seq<Collection>
  {
    Filter(db, (c: Collection) => Selected(c, farmerId, startDay, endDay))
  }

  /** The farmer's advances, all dates. */
  function FarmerAdvances(advances: seq<Advance>, farmerId: Option<string>): seq<Advance>
  {
    Filter(advances, (a: Advance) => ForFarmer(farmerId, a.farmerId))
  }

  /** `getFarmerStatement`. */
  function FarmerStatement(
    db: seq<Collection>, advances: seq<Advance>, farmerId: Option<string>, startDay: int, endDay: int)
    : (r: Statement)
    ensures multiset(r.transactions) == multiset(Selection(db, farmerId, startDay, endDay))
    ensures forall i :: 0 <= i < |r.transactions| ==>
              r.transactions[i] in db && Selected(r.transactions[i], farmerId, startDay, endDay)
    ensures forall i :: 0 <= i < |db| && Selected(db[i], farmerId, startDay, endDay) ==>
              db[i] in r.transactions
    ensures forall i, j :: 0 <= i < j < |r.transactions| ==>
              r.transactions[i].date <= r.transactions[j].date
    ensures r.summary.totalQty == SumBy(r.transactions, (c: Collection) => c.quantity)
    ensures r.summary.grossAmount == SumBy(r.transactions, (c: Collection) => c.totalAmount)
    ensures r.summary.advanceDeducted == SumBy(FarmerAdvances(advances, farmerId), (a: Advance) => a.amount)
    ensures r.summary.netPayable == r.summary.grossAmount - r.summary.advanceDeducted
  {
    var sel := Selection(db, farmerId, startDay, endDay);
    var report := SortBy(sel, (c: Collection) => c.date);
    var mine := FarmerAdvances(advances, farmerId);
    StatementFacts(sel, report, mine);
    SelectionMembers(db, farmerId, startDay, endDay);
    Statement(report, Summary(
      SumBy(report, (c: Collection) => NumberOrZero(c.quantity)),
      SumBy(report, (c: Collection) => NumberOrZero(c.totalAmount)),
      SumBy(mine, (a: Advance) => NumberOrZero(a.amount)),
      SumBy(report, (c: Collection) => NumberOrZero(c.totalAmount)) - SumBy(mine, (a: Advance) => NumberOrZero(a.amount))))
  }

  /** `Number(x) || 0` is the identity on stored numbers, and a reordering keeps membership. */
  lemma StatementFacts(sel: seq<Collection>, report: seq<Collection>, mine: seq<Advance>)
    requires multiset(report) == multiset(sel)
    ensures forall c :: c in report <==> c in sel
    ensures SumBy(report, (c: Collection) => NumberOrZero(c.quantity)) == SumBy(report, (c: Collection) => c.quantity)
    ensures SumBy(report, (c: Collection) => NumberOrZero(c.totalAmount)) == SumBy(report, (c: Collection) => c.totalAmount)
    ensures SumBy(mine, (a: Advance) => NumberOrZero(a.amount)) == SumBy(mine, (a: Advance) => a.amount)
  {
    forall c
      ensures c in report <==> c in sel
    {
      assert c in report <==> c in multiset(report);
      assert c in sel <==> c in multiset(sel);
    }
    SumByCongruent(report, (c: Collection) => NumberOrZero(c.quantity), (c: Collection) => c.quantity);
    SumByCongruent(report, (c: Collection) => NumberOrZero(c.totalAmount), (c: Collection) => c.totalAmount);
    SumByCongruent(mine, (a: Advance) => NumberOrZero(a.amount), (a: Advance) => a.amount);
  }

  /** Every selected record is a stored record that passes the filter. */
  lemma SelectionMembers(db: seq<Collection>, farmerId: Option<string>, startDay: int, endDay: int)
    ensures forall c :: c in Selection(db, farmerId, startDay, endDay) ==>
              c in db && Selected(c, farmerId, startDay, endDay)
  {
    var sel := Selection(db, farmerId, startDay, endDay);
    forall c | c in sel
      ensures c in db && Selected(c, farmerId, startDay, endDay)
    {
      var i :| 0 <= i < |sel| && sel[i] == c;
    }
  }

  /** The statement's totals are the sums over the selected records in
      store order too: sorting moves records, it does not change the totals. */
  lemma {:induction false} TotalsIgnoreOrder(
    db: seq<Collection>, advances: seq<Advance>, farmerId: Option<string>, startDay: int, endDay: int)
    ensures var sel := Selection(db, farmerId, startDay, endDay);
            var r := FarmerStatement(db, advances, farmerId, startDay, endDay);
            && r.summary.totalQty == SumBy(sel, (c: Collection) => c.quantity)
            && r.summary.grossAmount == SumBy(sel, (c: Collection) => c.totalAmount)
  {
    var sel := Selection(db, farmerId, startDay, endDay);
    SumBySortBy(sel, (c: Collection) => c.date, (c: Collection) => c.quantity);
    SumBySortBy(sel, (c: Collection) => c.date, (c: Collection) => c.totalAmount);
  }

  /** With no records and no advances every summary figure is zero. */
  lemma EmptyStatement(farmerId: Option<string>, startDay: int, endDay: int)
    ensures FarmerStatement([], [], farmerId, startDay, endDay)
         == Statement([], Summary(0.0, 0.0, 0.0, 0.0))
  {
  }

  /** The net payable is not clamped: it is negative exactly when the
      farmer's advances exceed the period's gross. */
  lemma NetPayableMayBeNegative(
    db: seq<Collection>, advances: seq<Advance>, farmerId: Option<string>, startDay: int, endDay: int)
    ensures var s := FarmerStatement(db, advances, farmerId, startDay, endDay).summary;
            s.netPayable < 0.0 <==> s.advanceDeducted > s.grossAmount
  {
  }

  /** Advances are deducted whatever their date: an advance taken outside
      the window counts as much as one inside it. */
  lemma {:induction false} AdvancesIgnoreWindow(
    db: seq<Collection>, advances: seq<Advance>, farmerId: Option<string>,
    startDay: int, endDay: int, startDay': int, endDay': int)
    ensures FarmerStatement(db, advances, farmerId, startDay, endDay).summary.advanceDeducted
         == FarmerStatement(db, advances, farmerId, startDay', endDay').summary.advanceDeducted
  {
  }

  /** A record stamped in the last second of the end day, after
      23:59:59.000, is left out whichever farmer is asked for, though it
      falls on the end day. */
  lemma LastSecondFractionExcluded(c: Collection, farmerId: Option<string>, startDay: int, endDay: int)
    requires StartOfDay(endDay) + LastSecondOfDay < c.date < StartOfDay(endDay) + MsPerDay
    ensures DayOf(c.date) == endDay
    ensures !Selected(c, farmerId, startDay, endDay)
  {
    DayOfWithinDay(endDay, c.date - StartOfDay(endDay));
  }

  /** A timestamp less than a day after a day's start falls on that day. */
  lemma DayOfWithinDay(day: int, offset: int)
    requires 0 <= offset < MsPerDay
    ensures DayOf(StartOfDay(day) + offset) == day
  {
    assert StartOfDay(day) + offset == day * MsPerDay + offset;
  }
}
