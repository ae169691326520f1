# Dairy ERP core in Dafny

This project models the computational core of a small dairy ERP. The ERP
has a REST backend that receives milk from farmers, prices each intake,
sells milk and products, keeps an inventory and reports on the business.
It also has a React admin screen on top of that backend. The model covers:

- **Milk intake.** The intake handler prices each collection with the
  farmer's rate rule: fat and SNF weighted (`FAT_SNF`), fat weighted
  (`FAT_ONLY`), or a fixed rate (`FIXED` and any other rate type). It also
  serves the ten-newest list.
- **Farmer settlement statement.** For a farmer and a date window it lists
  the records, sums the stored amounts and deducts every advance the
  farmer ever took.
- **Dashboard statistics.** Volume by milk type, average quality, the
  re-priced milk cost, profit, pending payments, the supplier count and the
  per-day volume buckets.
- **Accountant's ledger.** Procurements, expenses and sales of a window
  as one debit/credit journal sorted by date, with its totals.
- **Period report.** One row per day or month of a year, with milk cost,
  expenses, revenue and net profit.
- **Inventory.** Creating a product, adding stock with its production-log
  entry, the stock history, and recording a sale, which decrements a linked
  product's stock.
- **Screens.** The intake form's live preview and submitted payload, the
  farmer picker and the farmer directory (search, location cards,
  paging), the sales screen (retail cart, wholesale bill, paged history)
  and the report screen (net balance, paged ledger).

Every handler is a pure function from the stored records and the parsed
request to the new records and the response. Numbers are exact reals. A
`parseFloat` that yields NaN is `None`. Timestamps are UTC milliseconds. A
handler's error response is an error value carrying its HTTP status.

Modules, one per file, follow the program's structure:

- `Common`, `Seqs`, `Grouping`, `Text` and `Paging` hold the JavaScript
  idioms the code relies on: `Math.round`, `x || 0`, `filter`, a stable
  sort, `findMany` with `take`, the insertion-ordered object used as a
  grouping map, `toLowerCase`/`includes`, and `slice`-based paging.
- `Entities` holds the stored records.
- `Pricing` holds the rate rule and the four places that re-implement it.
- `Collections`, `Settlement`, `Dashboard`, `Ledger`, `Periods` and
  `Inventory` are the backend handlers.
- `IntakeForm`, `Directory`, `Pos` and `ReportsView` are the screens.

The settlement statement sums each record's stored `totalAmount` as it
was stored at intake. It subtracts the sum of all the farmer's advances,
whatever their date, and does not round
(`backend/src/controllers/settlementController.js:26-45`).

## Model

| member | source | states |
|---|---|---|
| Collections.AddCollection | backend/src/controllers/collectionController.js:5-38 | An unknown farmer is answered 404 with nothing stored. The intake is stored exactly when the quantity and every reading the farmer's rate type uses parse. Once stored, it is the only change: it carries the request's farmer, quantity and shift, its readings with unparsed ones as 0, and a rate and amount that obey the pricing rule for the stored readings. A refused request changes nothing. |
| Collections.RawRate | backend/src/controllers/collectionController.js:12-19 | The computed rate is a number exactly when every reading the rate type reads parsed. It then equals the rule applied to the readings as they are stored. |
| Collections.IgnoredReadingStoredAsZero | backend/src/controllers/collectionController.js:23-33 | For a `FAT_ONLY` farmer an unparsable SNF does not block the intake and is stored as 0. |
| Collections.RecentCollections | backend/src/controllers/collectionController.js:41-51 | Returns min(10, n) stored collections, newest first. No collection left out is newer than any collection shown. |
| Pricing.RateMonotone | backend/src/controllers/collectionController.js:12-19 | With non-negative fat and SNF rates, higher readings never give a lower rate. |
| Pricing.FixedRateIgnoresReadings | backend/src/controllers/collectionController.js:17-18 | Every rate type other than the two graded ones pays the fixed rate whatever the readings. |
| Pricing.SnfOnlyMattersForFatSnf | backend/src/controllers/collectionController.js:13-16 | Only `FAT_SNF` depends on the SNF reading. |
| Pricing.StatsAndLedgerAgreeWithRule | backend/src/controllers/dashboardController.js:54-62 | The statistics' re-pricing and the ledger's re-pricing (lines 134-136) both give the intake rule's rate for every stored reading. |
| Pricing.LifetimeRateSurcharge | backend/src/controllers/dashboardController.js:73-77 | The pending-payments rate exceeds the intake rule by exactly 3.5 × fat rate for a zero fat reading the type uses, plus 8.5 × SNF rate for a zero SNF reading `FAT_SNF` uses. It exceeds it by nothing otherwise. |
| Pricing.LifetimeAgreesWhenMeasured | backend/src/controllers/dashboardController.js:73-77 | When no reading the rate type uses is zero, the pending-payments rate equals the intake rule. |
| Settlement.FarmerStatement | backend/src/controllers/settlementController.js:4-52 | The transactions are a reordering of exactly the stored records that belong to the farmer and fall between the start day's 00:00:00 and the end day's 23:59:59, both inclusive; with no farmer given, every farmer's records. They are in ascending date order. Quantity and gross are their sums. The deduction is the sum of all the farmer's advances. Net payable is gross less deduction. |
| Settlement.TotalsIgnoreOrder | backend/src/controllers/settlementController.js:26-31 | The statement's quantity and gross equal the sums over the selected records in store order. Sorting does not change them. |
| Settlement.NetPayableMayBeNegative | backend/src/controllers/settlementController.js:45 | Net payable is not clamped. It is negative exactly when the advances exceed the gross. |
| Settlement.AdvancesIgnoreWindow | backend/src/controllers/settlementController.js:21-23 | The deduction is the same for every date window. |
| Settlement.LastSecondFractionExcluded | backend/src/controllers/settlementController.js:12-15 | Any record stamped after 23:59:59.000 of the end day and before the next midnight falls on the end day, yet is in no statement for that window, whatever the farmer filter. |
| Settlement.EmptyStatement | backend/src/controllers/settlementController.js:26-46 | With no records and no advances, the statement is empty and every figure is 0. |
| Dashboard.GetStats | backend/src/controllers/dashboardController.js:5-113 | The total, cow and buffalo litres are the period records' litres, and the total is cow plus buffalo. The supplier count is the number of distinct farmers among the records, at most the record count and 0 exactly for no records. The fat and SNF averages are the means over the records with a fat reading, and the fat average is positive exactly when such a record exists. The total cost is the re-priced milk cost rounded to a whole number. Revenue and expenses are the sale and expense sums, 0 over no rows. Net profit is revenue less (milk cost + expenses), rounded. Pending payments are the lifetime milk cost with default readings, less all advances, rounded. There is one day bucket per UTC day with records, none twice, each holding that day's litres, together all the litres. The inventory lists each product's name, stock and unit, in order. |
| Dashboard.VolumeSplit | backend/src/controllers/dashboardController.js:47-50 | Every record's litres land in exactly one of the cow and buffalo totals. |
| Dashboard.AvgFatPositive | backend/src/controllers/dashboardController.js:52-94 | The fat average is positive exactly when some record has a fat reading above 0. |
| Dashboard.AvgFatWithinReadings | backend/src/controllers/dashboardController.js:52-94 | When at least one record has a fat reading above 0, the fat average lies between any bounds that hold for every such reading. |
| Dashboard.UngradedRecordIgnored | backend/src/controllers/dashboardController.js:52-95 | A record without a fat reading changes neither the fat average nor the SNF average. |
| Dashboard.MilkCostMatchesStored | backend/src/controllers/dashboardController.js:54-63 | When every farmer's rates are still those the intake was priced with, the re-priced milk cost equals the sum of the stored amounts. |
| Dashboard.FarmerCount | backend/src/controllers/dashboardController.js:97 | The distinct-supplier count is at most the number of records and is 0 exactly when there are none. |
| Dashboard.TrendsFacts | backend/src/controllers/dashboardController.js:82-88 | There is one bucket per UTC day that has records and no other. Each bucket holds exactly that day's litres. The buckets add up to all the litres. |
| Grouping.GroupFoldFacts | backend/src/controllers/dashboardController.js:196-213 | Grouping into an insertion-ordered map gives distinct keys and exactly the keys that occur. Each group's total is the sum of its records' amounts, and the group totals add up to the sum of all amounts. |
| Ledger.GetLedger | backend/src/controllers/dashboardController.js:116-173 | The ledger is a reordering of one line per procurement, expense and sale inside the window, sorted by date. Total debit is the rounded re-priced procurement amounts plus the expenses. Total credit is the sales. Only sale lines carry a credit, only non-sale lines a debit, and every procurement debit is a whole number. |
| Ledger.ProcurementsListed | backend/src/controllers/dashboardController.js:133-143 | Every collection inside the window has its procurement line in the ledger. |
| Ledger.ExpensesListed | backend/src/controllers/dashboardController.js:145-151 | Every expense inside the window has its line in the ledger. |
| Ledger.SalesListed | backend/src/controllers/dashboardController.js:153-159 | Every sale inside the window has its line in the ledger. |
| Ledger.DebitMatchesStoredWhenRatesUnchanged | backend/src/controllers/dashboardController.js:133-141 | When the farmer's rates are those the intake was priced with, a procurement's debit is the stored amount rounded. |
| Ledger.RateChangeShowsInLedger | backend/src/controllers/dashboardController.js:133-141 | For a farmer on a fixed rate whose intake was priced with the current rate, raising or lowering that rate by d changes the intake's ledger debit away from its rounded stored amount whenever quantity × d is at least 1 in size. |
| Periods.Rows | backend/src/controllers/dashboardController.js:190-218 | There is one row per period that has any collection, expense or sale, and none twice. Each row's milk cost, expenses and revenue are exactly that period's sums. Its net profit is revenue less (milk cost + expenses). |
| Periods.DetailedReport | backend/src/controllers/dashboardController.js:176-223 | The report's periods are exactly the periods of the records that fall inside the year, each listed once. Each row holds its period's milk cost, expenses and revenue over the year's records, and its net profit is revenue less (milk cost + expenses). |
| Periods.NetProfitsAddUp | backend/src/controllers/dashboardController.js:196-218 | Summed over the rows, milk cost, expenses and revenue equal the record totals, and the net profits sum to revenue less costs. No record is lost or counted twice. |
| Inventory.AddProduct | backend/src/controllers/productController.js:16-39 | An empty name gives 400, then a taken name gives 400. Otherwise exactly one product is added under its name, with stock 0 and the parsed price or 0. Refusals change nothing. |
| Inventory.AddStock | backend/src/controllers/productController.js:76-107 | An unknown product gives 404. The stock rises by exactly the quantity, with one log entry appended, both or neither. The entry is filed under the product's name with milk used 0, yield 0 and the given date or now. No other product and no sale changes. The answer is the fixed "Stock Added Successfully" message. |
| Inventory.StockHistory | backend/src/controllers/productController.js:110-117 | Returns min(20, n) log entries, newest first. No entry left out is newer than any entry shown. |
| Inventory.AddSale | backend/src/controllers/saleController.js:4-45 | A named product the inventory lacks gives 400 with nothing written. A sale is stored exactly when quantity and rate parse. It records total = quantity × rate. A linked product's stock falls by the quantity, with no floor. Nothing else changes. |
| Inventory.AllSales | backend/src/controllers/saleController.js:47-49 | Returns every sale exactly once, newest first. |
| Inventory.PostSales | backend/src/controllers/saleController.js:4-45 | Posting requests in order books all of them exactly when every request names no product or a product the inventory has, and its quantity and rate parse. When all are booked, one sale per request is appended in request order, each at quantity × rate, and no product is added or removed. |
| Inventory.TransitionsKeepKeys | backend/src/controllers/productController.js:23-30 | Creating a product, adding stock and selling keep every product filed under its own unique name. |
| Inventory.SaleUndoesStockAddition | backend/src/controllers/saleController.js:31-36 | Selling exactly what was just added restores the product table. |
| Inventory.StockMayGoNegative | backend/src/controllers/saleController.js:31-36 | A sale larger than the stock is accepted and leaves the stock negative. |
| Inventory.StockIsNetOfMovements | backend/src/controllers/productController.js:84-88 | After any run of stock additions and linked sales, each product's stock is its starting stock plus what was added less what was sold. |
| Text.Contains | frontend/src/components/FarmerDirectory.jsx:42-44 | `includes` holds exactly when the term occurs at some offset. |
| Text.ToLowerIdempotent | frontend/src/components/FarmerDirectory.jsx:42-43 | Lower-casing twice is lower-casing once. |
| Paging.PageRows | frontend/src/components/Sales.jsx:50-52 | A page never has more than the page size. Page p shows the rows at positions (p-1)·size onwards, as many as remain up to the size. |
| Paging.TotalPages | frontend/src/components/Sales.jsx:53 | The page count is the least number of pages that holds every row. |
| Paging.SerialNamesRow | frontend/src/components/FarmerDirectory.jsx:134 | The serial number printed for a table row is that row's position in the filtered list. |
| Paging.ShowingCountsRows | frontend/src/components/FarmerDirectory.jsx:190 | On every page that exists, "Showing a-b" counts exactly the rows shown. |
| Paging.PagesCoverList | frontend/src/components/FarmerDirectory.jsx:51-55 | The pages, one after another, are the whole list. |
| Paging.GuardedPagerStaysInRange | frontend/src/components/Reports.jsx:47-53 | The guarded previous/next handlers keep the page between 1 and the last page. |
| Paging.ButtonsStayInRange | frontend/src/components/FarmerDirectory.jsx:192-199 | On a page that exists, the disabled-when-at-the-end buttons stay in range and agree with the guarded handlers. |
| Directory.Filtered | frontend/src/components/FarmerDirectory.jsx:41-49 | The table lists, in directory order, exactly the farmers matching both the search and the location. |
| Directory.CardCount | frontend/src/components/FarmerDirectory.jsx:60 | A card never counts more farmers than exist. The 'ALL' card counts everyone. |
| Directory.CardCountsTable | frontend/src/components/FarmerDirectory.jsx:37-49 | With an empty search, the table lists as many farmers as the selected card shows. |
| Directory.ActionsKeepPageValid | frontend/src/components/FarmerDirectory.jsx:23-25 | Typing a search, picking a card and the page buttons all keep the page on one that exists. |
| Directory.ValidPageNotEmpty | frontend/src/components/FarmerDirectory.jsx:52-55 | On a valid page of a non-empty result the table is never empty. |
| IntakeForm.LivePreview | frontend/src/components/MilkCollection.jsx:42-64 | The preview is zeros until a farmer is picked and a quantity typed. After that its rate is the intake rule on the typed readings and its total is rate × quantity. |
| IntakeForm.Payload | frontend/src/components/MilkCollection.jsx:66-78 | Submitting without a farmer is refused. Otherwise the body carries the farmer and parsed numbers that always parse, with fat 0 for `FIXED` and SNF 0 unless `FAT_SNF`. |
| IntakeForm.MaskingKeepsRate | frontend/src/components/MilkCollection.jsx:74-76 | Zeroing the readings the rate type hides never changes the rate. |
| IntakeForm.SubmittedMatchesPreview | frontend/src/components/MilkCollection.jsx:42-78 | Submitting the form for a stored farmer is accepted by the intake handler. The stored rate and amount are exactly what the preview showed. |
| IntakeForm.FilterFarmers | frontend/src/components/MilkCollection.jsx:92-95 | The picker lists, in order, exactly the farmers whose name contains the term ignoring case or whose code contains it as typed. |
| IntakeForm.EmptySearchListsAll | frontend/src/components/MilkCollection.jsx:92-95 | With nothing typed, the picker lists every farmer. |
| IntakeForm.FoundByCodeOrName | frontend/src/components/MilkCollection.jsx:92-95 | A farmer is found by their code, and by their name typed in any mix of case. |
| Pos.AddToCart | frontend/src/components/Sales.jsx:75-82 | A product already in the cart gets one more unit on its line. A new product gets a new line of 1. Lines stay unique per product. |
| Pos.UpdateCartQty | frontend/src/components/Sales.jsx:84-92 | Only the chosen product's line changes. Its quantity becomes the stepped quantity: rounded to thousandths and never below 0.05. |
| Pos.Stepped | frontend/src/components/Sales.jsx:87-88 | A stepped quantity is at least 0.05, and exactly 0.05 when the sum is at or below it. From 0.05 up it is the sum rounded to the nearest thousandth, so within half a thousandth of it. |
| Pos.SetExactQty | frontend/src/components/Sales.jsx:94-96 | Only the chosen product's line changes, to exactly the typed or preset quantity. |
| Pos.ExactQtySkipsMinimum | frontend/src/components/Sales.jsx:94-96 | Typing a quantity keeps one line per product, but a typed 0 stays in the cart: unlike the +/- buttons, typing does not enforce the 0.05 minimum. |
| Pos.RemoveFromCart | frontend/src/components/Sales.jsx:98 | The product leaves the cart. Every other line stays, in order. |
| Pos.CartOperationsKeepInvariant | frontend/src/components/Sales.jsx:75-98 | Adding, the +/- buttons and removing keep lines unique per product and every quantity at least 0.05. |
| Pos.CheckoutRetail | frontend/src/components/Sales.jsx:100-130 | An empty cart is refused. Otherwise one counter sale request per line, in order, with the line's product, quantity and price. |
| Pos.InvoiceMatchesBookedSales | frontend/src/components/Sales.jsx:105-118 | Posting the checkout's requests one by one to the sale handler books every line exactly when each product is unlinked or in the inventory. Then the booked totals add up to the invoice total. |
| Pos.SelectProduct | frontend/src/components/Sales.jsx:272 | Picking a listed product presets the rate to the selling price of the first product with that name. Picking nothing clears it. The bill and customer are untouched. |
| Pos.AddItemToBill | frontend/src/components/Sales.jsx:135-144 | Refused exactly when product, quantity or rate is falsy. Otherwise one line with quantity × rate is appended and the item form is cleared. |
| Pos.ZeroRateQuirk | frontend/src/components/Sales.jsx:137 | A preset rate of 0 is refused as empty, yet a typed "0" is accepted. |
| Pos.RemoveBillItem | frontend/src/components/Sales.jsx:146-148 | Only the line with that id leaves the bill, and consistent line totals stay consistent. |
| Pos.WholesaleTotal | frontend/src/components/Sales.jsx:185 | The bill total is a number exactly when every line total is. |
| Pos.WholesaleTotalSums | frontend/src/components/Sales.jsx:185 | When every line parses, the bill total is the sum of the line totals. |
| Pos.FinalizeWholesale | frontend/src/components/Sales.jsx:150-182 | No customer name is refused first, then an empty bill. Otherwise one request per line, in order, with the customer and the line's parsed quantity and rate. |
| Pos.BookedMatchesBill | frontend/src/components/Sales.jsx:156-169 | Posting the bill's requests one by one to the sale handler books every line exactly when each line's product is unlinked or in the inventory and its quantity and rate parse. Then the bill total is the sum of the booked totals. |
| Pos.PagerMeansSeveralPages | frontend/src/components/Sales.jsx:332 | The history pager appears only when there are at least two pages. |
| ReportsView.BalanceIsSalesLessCosts | frontend/src/components/Reports.jsx:39 | The net balance is the window's sales less its procurement debits and expenses. |
| ReportsView.CurrentRows | frontend/src/components/Reports.jsx:42-44 | A page holds at most 20 ledger lines, taken in order from the page's first position. |
| ReportsView.ActionsKeepPageValid | frontend/src/components/Reports.jsx:31-53 | Loading a ledger and both buttons keep the page between 1 and the last page. |
| ReportsView.LabelCountsRows | frontend/src/components/Reports.jsx:159 | The "Showing a-b of n" label counts exactly the rows on the page. |

## Left out

- Authentication, users, settings, backups and the CSV/ZIP exports are left out because they hold no computation beyond storage calls.
- The production handler and the CRUD handlers for farmers, advances and expenses are left out for the same reason. So are the product list, product update and product delete handlers.
- The HTTP layer, the ORM and the network are outside the model. Each handler takes the stored records as arguments and returns the new records with the response.
- A number that does not parse (NaN) reaching a store write is assumed to be refused by the store. The handler's catch then answers 500 and nothing is written. How the store treats NaN is not part of this model.
- The dashboard statistics' date range (today, week, month, year or a custom day) comes from the host's local clock. `Dashboard.GetStats` is given the records already inside the range.
- The period report's keys come from the host locale (`toLocaleString` month names) or from `toISOString`. `Periods.DetailedReport` takes the key function as a parameter, and the year as an explicit `[start, end]` window in milliseconds.
- The display formatting is not modelled: `toFixed(2)` in the intake preview, the invoice layout, `toLocaleString` and the ledger line descriptions.
- Timestamps are whole milliseconds in UTC. An unparsable date in a request is not modelled.
- Ledger.GetLedger: the stable order of same-dated lines (JavaScript's sort is stable, as is the model's insertion sort) is not stated as a property.
- Text.ToLower: covers the ASCII letters only. Other letters are left as they are.
- Pos.SetExactQty: takes the typed quantity as a number. A typed value that does not parse (NaN) is not modelled.
- Collections.RecentCollections: the farmer joined onto each record is not modelled.
- Inventory.PostSales: after a refused request the store keeps the sales booked before it, as the screens' posting loop does. The contract does not describe the store after a refusal.
