/** The product inventory as a state machine over the store: products
    keyed by their unique name, the production (stock addition) log and the
    sales. Creating a product, adding stock and recording a sale are its
    transitions. */
module Inventory {
  import opened Common
  import opened Entities
  import Seqs

  datatype Store = Store(products: map<string, Product>, log: seq<ProductionLog>, sales: seq<Sale>)

  datatype InventoryError =
    | NameRequired
    | AlreadyExists
    | ProductNotFound
      /** The sale names a product the inventory does not have. */
    | NotInInventory
      /** A quantity, rate or price that did not parse reached the store,
          which refuses it; the handler's catch answers 500. */
    | StoreRejected
  {
    function Status(): int {
      match this
      case NameRequired => 400
      case AlreadyExists => 400
      case ProductNotFound => 404
      case NotInInventory => 400
      case StoreRejected => 500
    }
  }

  const ManualNote: string := "Manual Stock Addition"
  const NoMilkType: string := "NA"

  /** How many log entries the stock history shows. */
  const HistoryLimit: nat := 20

  /** Every product is filed under its own name. */
  predicate WellKeyed(products: map<string, Product>) {
    forall n :: n in products ==> products[n].name == n
  }

  /** `addProduct`. An empty or missing name is refused; a taken name
      violates the unique constraint; otherwise the product starts with no
      stock and the parsed price, or 0. */
  function AddProduct(s: Store, name: string, unit: Option<string>, sellingPrice: Option<real>)
    : (r: Step<Store, Product, InventoryError>)
    ensures name == "" <==> r.response == Err(NameRequired)
    ensures name != "" && name in s.products <==> r.response == Err(AlreadyExists)
    ensures r.response.Err? ==> r.state == s
    ensures r.response.Ok? ==>
              && name !in s.products
              && r.response.value == Product(name, unit, 0.0, OrZero(sellingPrice))
              && r.state == s.(products := s.products[name := r.response.value])
  {
    if name == "" then Step(s, Err(NameRequired))
    else if name in s.products then Step(s, Err(AlreadyExists))
    else
      var p := Product(name, unit, 0.0, OrZero(sellingPrice));
      Step(s.(products := s.products[name := p]), Ok(p))
  }

  /** The fixed body `addStock` answers with. */
  const StockAdded: string := "Stock Added Successfully"

  /** `addStock`: the product's stock rises by the quantity and the
      addition is logged, both or neither; the answer is a fixed message. */
  function AddStock(s: Store, productName: string, quantity: Option<real>, date: Option<int>, now: int)
    : (r: Step<Store, string, InventoryError>)
    ensures productName !in s.products ==> r.response == Err(ProductNotFound)
    ensures r.response.Ok? <==> productName in s.products && quantity.Some?
    ensures r.response.Err? ==> r.state == s
    ensures r.response.Ok? ==>
              && r.response.value == StockAdded
              && r.state.products.Keys == s.products.Keys
              && r.state.products[productName].stock == s.products[productName].stock + quantity.value
              && r.state.products[productName] == s.products[productName].(stock := r.state.products[productName].stock)
              && (forall n :: n in s.products && n != productName ==> r.state.products[n] == s.products[n])
              && r.state.sales == s.sales
              && |r.state.log| == |s.log| + 1
              && r.state.log[..|s.log|] == s.log
              && var e := r.state.log[|s.log|];
                 && e.productName == productName
                 && e.outputQty == quantity.value
                 && e.milkUsed == 0.0 && e.yieldPct == 0.0
                 && e.date == date.GetOr(now)
  {
    if productName !in s.products then Step(s, Err(ProductNotFound))
    else if quantity.None? then Step(s, Err(StoreRejected))
    else
      var p := s.products[productName];
      var entry := ProductionLog(productName, quantity.value, 0.0, NoMilkType, 0.0, date.GetOr(now), ManualNote);
      Step(Store(s.products[productName := p.(stock := p.stock + quantity.value)], s.log + [entry], s.sales), Ok(StockAdded))
  }

  /** `getStockHistory`: the twenty newest log entries, newest first. */
  function StockHistory(log: seq<ProductionLog>): (r: seq<ProductionLog>)
    ensures |r| == Min(HistoryLimit, |log|)
    ensures forall i, j :: 0 <= i < j < |r| ==> r[i].date >= r[j].date
    ensures multiset(r) <= multiset(log)
    ensures forall i :: 0 <= i < |r| ==>
              forall e :: e in multiset(log) - multiset(r) ==> e.date <= r[i].date
  {
    Seqs.Newest(log, (e: ProductionLog) => e.date, HistoryLimit)
  }

  /** The sale request after `parseFloat`; an empty `productName` is a sale
      that is not linked to inventory. */
  datatype SaleRequest = SaleRequest(
    customerName: string,
    quantity: Option<real>,
    rate: Option<real>,
    productName: string,
    date: Option<int>)

  /** `addSale`: an unknown product is refused before anything is written;
      otherwise the sale is stored at quantity times rate and, for a linked
      product, the stock falls by the quantity with no check that enough is
      left. */
  function AddSale(s: Store, req: SaleRequest, id: string, now: int): (r: Step<Store, Sale, InventoryError>)
    ensures req.productName != "" && req.productName !in s.products ==> r.response == Err(NotInInventory)
    ensures r.response.Ok? <==>
              (req.productName == "" || req.productName in s.products) && req.quantity.Some? && req.rate.Some?
    ensures r.response.Err? ==> r.state == s
    ensures r.response.Ok? ==>
              var sale := r.response.value;
              && sale == Sale(id, req.customerName, req.quantity.value, req.rate.value,
                              req.quantity.value * req.rate.value, req.date.GetOr(now))
              && r.state.sales == s.sales + [sale]
              && r.state.log == s.log
              && r.state.products.Keys == s.products.Keys
              && (forall n :: n in s.products && n != req.productName ==> r.state.products[n] == s.products[n])
              && (req.productName != "" ==>
                    r.state.products[req.productName]
                      == s.products[req.productName].(stock := s.products[req.productName].stock - req.quantity.value))
  {
    if req.productName != "" && req.productName !in s.products then Step(s, Err(NotInInventory))
    else if req.quantity.None? || req.rate.None? then Step(s, Err(StoreRejected))
    else
      var qty, rate := req.quantity.value, req.rate.value;
      var sale := Sale(id, req.customerName, qty, rate, qty * rate, req.date.GetOr(now));
      var products :=
        if req.productName == "" then s.products
        else
          var p := s.products[req.productName];
          s.products[req.productName := p.(stock := p.stock - qty)];
      Step(Store(products, s.log, s.sales + [sale]), Ok(sale))
  }

  /** The sale handler accepts the request's product: none, or one the inventory has. */
  predicate Known(products: map<string, Product>, req: SaleRequest) {
    req.productName == "" || req.productName in products
  }

  /** The sale handler stores the request: a known product and numbers that parse. */
  predicate Bookable(products: map<string, Product>, req: SaleRequest) {
    Known(products, req) && req.quantity.Some? && req.rate.Some?
  }

  /** Posting sale requests one after another, each awaited, as the sales
      screen does at checkout. The first refusal ends the run; the sales
      booked before it stay booked. `ids` are the identifiers the store
      assigns to the sales. */
  function PostSales(s: Store, reqs: seq<SaleRequest>, ids: seq<string>, now: int)
    : (r: Step<Store, seq<Sale>, InventoryError>)
    requires |ids| == |reqs|
    ensures r.state.products.Keys == s.products.Keys
    ensures r.response.Ok? <==> forall i :: 0 <= i < |reqs| ==> Bookable(s.products, reqs[i])
    ensures r.response.Ok? ==>
              && |r.response.value| == |reqs|
              && r.state.sales == s.sales + r.response.value
              && forall i :: 0 <= i < |reqs| ==>
                   r.response.value[i].totalAmount == reqs[i].quantity.value * reqs[i].rate.value
    decreases |reqs|
  {
    if |reqs| == 0 then Step(s, Ok([]))
    else
      var first := AddSale(s, reqs[0], ids[0], now);
      if first.response.Err? then
        Step(first.state, Err(first.response.error))
      else
        var rest := PostSales(first.state, reqs[1..], ids[1..], now);
        PostedAfterFirst(s, reqs, first, rest);
        if rest.response.Err? then rest
        else Step(rest.state, Ok([first.response.value] + rest.response.value))
  }

  /** A booked first request followed by the run of the others gives the
      run of all of them. */
  lemma PostedAfterFirst(s: Store, reqs: seq<SaleRequest>,
                         first: Step<Store, Sale, InventoryError>, rest: Step<Store, seq<Sale>, InventoryError>)
    requires |reqs| > 0 && first.response.Ok? && Bookable(s.products, reqs[0])
    requires first.state.products.Keys == s.products.Keys
    requires first.state.sales == s.sales + [first.response.value]
    requires first.response.value.totalAmount == reqs[0].quantity.value * reqs[0].rate.value
    requires rest.state.products.Keys == first.state.products.Keys
    requires rest.response.Ok? <==>
               forall i :: 0 <= i < |reqs[1..]| ==> Bookable(first.state.products, reqs[1..][i])
    requires rest.response.Ok? ==>
               && |rest.response.value| == |reqs[1..]|
               && rest.state.sales == first.state.sales + rest.response.value
               && forall i :: 0 <= i < |reqs[1..]| ==>
                    rest.response.value[i].totalAmount == reqs[1..][i].quantity.value * reqs[1..][i].rate.value
    ensures rest.response.Ok? <==> forall i :: 0 <= i < |reqs| ==> Bookable(s.products, reqs[i])
    ensures rest.response.Ok? ==>
              var all := [first.response.value] + rest.response.value;
              && |all| == |reqs|
              && rest.state.sales == s.sales + all
              && forall i :: 0 <= i < |reqs| ==>
                   all[i].totalAmount == reqs[i].quantity.value * reqs[i].rate.value
  {
    assert forall i :: 1 <= i < |reqs| ==> reqs[i] == reqs[1..][i - 1];
    if rest.response.Ok? {
      var all := [first.response.value] + rest.response.value;
      assert forall i :: 1 <= i < |all| ==> all[i] == rest.response.value[i - 1];
    }
  }

  /** `getAllSales`: every sale, newest first. */
  function AllSales(sales: seq<Sale>): (r: seq<Sale>)
    ensures forall i, j :: 0 <= i < j < |r| ==> r[i].date >= r[j].date
    ensures multiset(r) == multiset(sales)
  {
    Seqs.SortDescBy(sales, (x: Sale) => x.date)
  }

  /** Every transition keeps each product filed under its own name. */
  lemma TransitionsKeepKeys(
    s: Store, name: string, unit: Option<string>, price: Option<real>,
    quantity: Option<real>, date: Option<int>, now: int, req: SaleRequest, id: string)
    requires WellKeyed(s.products)
    ensures WellKeyed(AddProduct(s, name, unit, price).state.products)
    ensures WellKeyed(AddStock(s, name, quantity, date, now).state.products)
    ensures WellKeyed(AddSale(s, req, id, now).state.products)
  {
  }

  /** Selling what was just added, of a product linked to the sale, gives
      back the product table as it was. */
  lemma SaleUndoesStockAddition(s: Store, name: string, qty: real, date: Option<int>, now: int,
                                customer: string, rate: real, id: string)
    requires name in s.products && name != ""
    ensures var added := AddStock(s, name, Some(qty), date, now).state;
            AddSale(added, SaleRequest(customer, Some(qty), Some(rate), name, None), id, now).state.products
              == s.products
  {
    var added := AddStock(s, name, Some(qty), date, now).state;
    var sold := AddSale(added, SaleRequest(customer, Some(qty), Some(rate), name, None), id, now).state;
    assert sold.products[name] == s.products[name];
  }

  /** Nothing stops a sale from taking more than is in stock: the stock goes negative. */
  lemma StockMayGoNegative(s: Store, req: SaleRequest, id: string, now: int)
    requires req.productName in s.products && req.productName != ""
    requires req.quantity.Some? && req.rate.Some?
    requires req.quantity.value > s.products[req.productName].stock
    ensures AddSale(s, req, id, now).response.Ok?
    ensures AddSale(s, req, id, now).state.products[req.productName].stock < 0.0
  {
  }

  /** A stock movement request: an addition or a linked sale. */
  datatype Movement = Restock(name: string, qty: real) | Sell(name: string, qty: real)

  function Signed(m: Movement, name: string): real {
    if m.name != name then 0.0
    else if m.Restock? then m.qty else -m.qty
  }

  /** Net movement of `name`'s stock over the requests. */
  function NetMovement(ms: seq<Movement>, name: string): real {
    Seqs.SumBy(ms, (m: Movement) => Signed(m, name))
  }

  /** The store after one request handled at time `now`. */
  function Apply(s: Store, m: Movement, now: int): Store {
    match m
    case Restock(n, q) => AddStock(s, n, Some(q), None, now).state
    case Sell(n, q) => AddSale(s, SaleRequest("", Some(q), Some(0.0), n, None), "", now).state
  }

  /** One request on an existing product moves only that product's stock, by its signed quantity. */
  lemma ApplyMoves(s: Store, m: Movement, now: int)
    requires m.name in s.products && m.name != ""
    ensures Apply(s, m, now).products.Keys == s.products.Keys
    ensures forall n :: n in s.products ==>
              Apply(s, m, now).products[n].stock == s.products[n].stock + Signed(m, n)
  {
  }

  /** The store after the requests, in order, all handled at time `now`. */
  function Replay(s: Store, ms: seq<Movement>, now: int): Store
    decreases |ms|
  {
    if |ms| == 0 then s
    else Apply(Replay(s, ms[..|ms| - 1], now), ms[|ms| - 1], now)
  }

  /** Over any run of additions and linked sales of existing products,
      every product's stock ends at its starting stock plus what was added
      less what was sold; the set of products never changes. */
  lemma {:induction false} StockIsNetOfMovements(s: Store, ms: seq<Movement>, now: int)
    requires forall i :: 0 <= i < |ms| ==> ms[i].name in s.products && ms[i].name != ""
    ensures Replay(s, ms, now).products.Keys == s.products.Keys
    ensures forall n :: n in s.products ==>
              Replay(s, ms, now).products[n].stock == s.products[n].stock + NetMovement(ms, n)
    decreases |ms|
  {
    if |ms| > 0 {
      var init := ms[..|ms| - 1];
      var m := ms[|ms| - 1];
      assert forall i :: 0 <= i < |init| ==> init[i] == ms[i];
      StockIsNetOfMovements(s, init, now);
      var before := Replay(s, init, now);
      ApplyMoves(before, m, now);
      assert Replay(s, ms, now) == Apply(before, m, now);
      forall n | n in s.products
        ensures NetMovement(ms, n) == NetMovement(init, n) + Signed(m, n)
      {
        NetMovementStep(ms, n);
      }
    }
  }

  /** The last request adds its signed quantity to the net movement of the ones before it. */
  lemma NetMovementStep(ms: seq<Movement>, name: string)
    requires |ms| > 0
    ensures NetMovement(ms, name) == NetMovement(ms[..|ms| - 1], name) + Signed(ms[|ms| - 1], name)
  {
    assert ms == ms[..|ms| - 1] + [ms[|ms| - 1]];
    Seqs.SumByAppend(ms[..|ms| - 1], [ms[|ms| - 1]], (x: Movement) => Signed(x, name));
  }
}
