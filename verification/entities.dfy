/** The stored records of the dairy ERP, one datatype per table. Every
    numeric column is an exact real; timestamps are milliseconds since the
    Unix epoch in UTC. Identifiers are the store's opaque strings. */
module Entities {
  import opened Common

  /** Milliseconds in one UTC day; `toISOString().split('T')[0]` names the day `date / MsPerDay`. */
  const MsPerDay: int := 86_400_000

  /** `T23:59:59Z` is this many milliseconds after the start of its day. */
  const LastSecondOfDay: int := 86_399_000

  /** The UTC calendar day a timestamp falls on (floor division). */
  function DayOf(date: int): int {
    date / MsPerDay
  }

  /** `new Date(day + "T00:00:00Z")` for a day number. */
  function StartOfDay(day: int): int {
    day * MsPerDay
  }

  /** `date` between `startDay`T00:00:00Z and `endDay`T23:59:59Z, both
      inclusive: the window the statement and the ledger query. */
  predicate InWindow(date: int, startDay: int, endDay: int) {
    StartOfDay(startDay) <= date <= StartOfDay(endDay) + LastSecondOfDay
  }

  /** A supplier. `rateType` is free text: `FAT_SNF`, `FAT_ONLY`, `FIXED`,
      or anything else the form or the API accepted. */
  datatype Farmer = Farmer(
    id: string,
    farmerCode: string,
    name: string,
    phone: Option<string>,
    address: Option<string>,
    milkType: string,
    rateType: string,
    fatRate: real,
    snfRate: real,
    fixedRate: real)

  /** One milk intake. `rate` and `totalAmount` are fixed when the record is created. */
  datatype Collection = Collection(
    id: string,
    farmerId: string,
    date: int,
    shift: string,
    quantity: real,
    fat: real,
    snf: real,
    rate: real,
    totalAmount: real)

  /** A collection row read together with its farmer (`include: { farmer: true }`). */
  function StoredAmount(c: Collection): real { c.totalAmount }

  datatype Joined = Joined(c: Collection, farmer: Farmer)

  /** A cash advance paid to a farmer. */
  datatype Advance = Advance(id: string, farmerId: string, amount: real, date: int)

  /** An operating expense. */
  datatype Expense = Expense(id: string, category: string, amount: real, date: int)

  function ExpenseAmount(e: Expense): real { e.amount }

  /** A sale of milk or a product. */
  datatype Sale = Sale(
    id: string,
    customerName: string,
    quantity: real,
    rate: real,
    totalAmount: real,
    date: int)

  function SaleAmount(s: Sale): real { s.totalAmount }

  /** A product in inventory; its name is unique. */
  datatype Product = Product(name: string, unit: Option<string>, stock: real, sellingPrice: real)

  /** One entry of the production (stock addition) log. */
  datatype ProductionLog = ProductionLog(
    productName: string,
    outputQty: real,
    milkUsed: real,
    milkType: string,
    yieldPct: real,
    date: int,
    notes: string)
}
