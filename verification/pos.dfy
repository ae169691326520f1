/** The sales screen: the retail cart, the wholesale bill and the paged
    sales history. Checkout posts one sale request per line to the sale
    handler. */
module Pos {
  import opened Common
  import opened Entities
  import opened Seqs
  import opened Paging
  import Inventory

  /** A product as the screen lists it. */
  datatype ShopProduct = ShopProduct(id: string, name: string, sellingPrice: real, stock: real)

  datatype CartItem = CartItem(product: ShopProduct, qty: real)

  datatype PosError = CartEmpty | FillAllFields | CustomerRequired | NoItems

  /** The customer name retail sales are recorded under. */
  const CounterCustomer: string := "Local Counter"

  /** The smallest quantity the +/- buttons leave in the cart. */
  const MinQty: real := 0.05

  const HistoryPerPage: nat := 10

  /** No product appears on two lines. */
  predicate UniqueIds(cart: seq<CartItem>) {
    forall i, j :: 0 <= i < j < |cart| ==> cart[i].product.id != cart[j].product.id
  }

  predicate InCart(cart: seq<CartItem>, id: string) {
    exists i :: 0 <= i < |cart| && cart[i].product.id == id
  }

  /** Applies `f` to the lines of product `id`, leaving the others alone. */
  function UpdateLines(cart: seq<CartItem>, id: string, f: real -> real): (r: seq<CartItem>)
    ensures |r| == |cart|
    ensures forall i :: 0 <= i < |cart| ==>
              r[i] == if cart[i].product.id == id then cart[i].(qty := f(cart[i].qty)) else cart[i]
  {
    seq(|cart|, i requires 0 <= i < |cart| =>
      if cart[i].product.id == id then cart[i].(qty := f(cart[i].qty)) else cart[i])
  }

  /** `addToCart`: one more of a product already in the cart, or a new line of one. */
  function AddToCart(cart: seq<CartItem>, p: ShopProduct): (r: seq<CartItem>)
    ensures InCart(cart, p.id) ==>
              && |r| == |cart|
              && forall i :: 0 <= i < |cart| ==>
                   r[i] == if cart[i].product.id == p.id then cart[i].(qty := cart[i].qty + 1.0) else cart[i]
    ensures !InCart(cart, p.id) ==> r == cart + [CartItem(p, 1.0)]
    ensures UniqueIds(cart) ==> UniqueIds(r)
    ensures InCart(r, p.id)
  {
    if InCart(cart, p.id) then UpdateLines(cart, p.id, q => q + 1.0)
    else
      var r := cart + [CartItem(p, 1.0)];
      assert r[|cart|].product.id == p.id;
      r
  }

  /** `toFixed(3)` read back as a number: the nearest thousandth, halves up. */
  function Thousandths(x: real): (r: real)
    ensures x - 0.0005 < r <= x + 0.0005
  {
    Round(x * 1000.0) / 1000.0
  }

  /** The quantity after pressing - or + on a line: rounded to thousandths,
      never below the minimum. */
  function Stepped(qty: real, delta: real): (r: real)
    ensures r >= MinQty
    ensures qty + delta <= MinQty ==> r == MinQty
    ensures qty + delta >= MinQty ==> r == Thousandths(qty + delta)
    ensures qty + delta >= MinQty ==> qty + delta - 0.0005 < r <= qty + delta + 0.0005
  {
    MaxReal(MinQty, Thousandths(qty + delta))
  }

  /** `updateCartQty`. */
  function UpdateCartQty(cart: seq<CartItem>, id: string, delta: real): (r: seq<CartItem>)
    ensures |r| == |cart|
    ensures forall i :: 0 <= i < |cart| ==> r[i].product == cart[i].product
    ensures forall i :: 0 <= i < |cart| && cart[i].product.id != id ==> r[i] == cart[i]
    ensures forall i :: 0 <= i < |cart| && cart[i].product.id == id ==> r[i].qty == Stepped(cart[i].qty, delta)
  {
    UpdateLines(cart, id, q => Stepped(q, delta))
  }

  /** `setExactQty`: the typed (or preset 200 g / 500 g) quantity, with no clamp. */
  function SetExactQty(cart: seq<CartItem>, id: string, qty: real): (r: seq<CartItem>)
    ensures |r| == |cart|
    ensures forall i :: 0 <= i < |cart| ==>
              r[i] == if cart[i].product.id == id then cart[i].(qty := qty) else cart[i]
  {
    UpdateLines(cart, id, q => qty)
  }

  /** `removeFromCart`. */
  function RemoveFromCart(cart: seq<CartItem>, id: string): (r: seq<CartItem>)
    ensures !InCart(r, id)
    ensures IsSubsequence(r, cart)
    ensures forall i :: 0 <= i < |cart| && cart[i].product.id != id ==> cart[i] in r
  {
    Filter(cart, (item: CartItem) => item.product.id != id)
  }

  /** Adding keeps the ids unique, the buttons keep every quantity at or
      above the minimum, and removing keeps both. */
  predicate CartInvariant(cart: seq<CartItem>) {
    UniqueIds(cart) && forall i :: 0 <= i < |cart| ==> cart[i].qty >= MinQty
  }

  lemma {:induction false} CartOperationsKeepInvariant(cart: seq<CartItem>, p: ShopProduct, id: string, delta: real)
    requires CartInvariant(cart)
    ensures CartInvariant(AddToCart(cart, p))
    ensures CartInvariant(UpdateCartQty(cart, id, delta))
    ensures CartInvariant(RemoveFromCart(cart, id))
  {
    var r := RemoveFromCart(cart, id);
    forall i, j | 0 <= i < j < |r|
      ensures r[i].product.id != r[j].product.id
    {
      SubsequenceIndices(r, cart, i, j);
    }
    forall i | 0 <= i < |r|
      ensures r[i].qty >= MinQty
    {
      SubsequenceMember(r, cart, i);
    }
  }

  /** Typing a quantity keeps one line per product but, unlike the +/- buttons,
      does not keep the minimum: a typed 0 stays in the cart as 0. */
  lemma ExactQtySkipsMinimum(cart: seq<CartItem>, p: ShopProduct)
    requires CartInvariant(cart)
    ensures UniqueIds(SetExactQty(cart, p.id, 0.0))
    ensures InCart(cart, p.id) ==> !CartInvariant(SetExactQty(cart, p.id, 0.0))
  {
    var r := SetExactQty(cart, p.id, 0.0);
    if InCart(cart, p.id) {
      var i :| 0 <= i < |cart| && cart[i].product.id == p.id;
      assert r[i].qty == 0.0;
    }
  }

  /** Two positions of a subsequence come from two ordered positions of the list. */
  lemma {:induction false} SubsequenceIndices<T>(r: seq<T>, s: seq<T>, i: nat, j: nat)
    requires IsSubsequence(r, s) && i < j < |r|
    ensures exists a, b :: 0 <= a < b < |s| && s[a] == r[i] && s[b] == r[j]
    decreases |s|
  {
    if r[0] == s[0] && IsSubsequence(r[1..], s[1..]) {
      if i == 0 {
        SubsequenceMember(r[1..], s[1..], j - 1);
        var b :| 0 <= b < |s[1..]| && s[1..][b] == r[j];
        assert s[0] == r[i] && s[b + 1] == r[j];
      } else {
        SubsequenceIndices(r[1..], s[1..], i - 1, j - 1);
        var a, b :| 0 <= a < b < |s[1..]| && s[1..][a] == r[1..][i - 1] && s[1..][b] == r[1..][j - 1];
        assert s[a + 1] == r[i] && s[b + 1] == r[j];
      }
    } else {
      SubsequenceIndices(r, s[1..], i, j);
      var a, b :| 0 <= a < b < |s[1..]| && s[1..][a] == r[i] && s[1..][b] == r[j];
      assert s[a + 1] == r[i] && s[b + 1] == r[j];
    }
  }

  lemma {:induction false} SubsequenceMember<T>(r: seq<T>, s: seq<T>, i: nat)
    requires IsSubsequence(r, s) && i < |r|
    ensures exists b :: 0 <= b < |s| && s[b] == r[i]
    decreases |s|
  {
    if r[0] == s[0] && IsSubsequence(r[1..], s[1..]) {
      if i == 0 {
        assert s[0] == r[i];
      } else {
        SubsequenceMember(r[1..], s[1..], i - 1);
        var b :| 0 <= b < |s[1..]| && s[1..][b] == r[1..][i - 1];
        assert s[b + 1] == r[i];
      }
    } else {
      SubsequenceMember(r, s[1..], i);
      var b :| 0 <= b < |s[1..]| && s[1..][b] == r[i];
      assert s[b + 1] == r[i];
    }
  }

  function LineAmount(item: CartItem): real { item.qty * item.product.sellingPrice }

  /** `retailTotal`. */
  function RetailTotal(cart: seq<CartItem>): real {
    SumBy(cart, LineAmount)
  }

  /** The sale request posted for one cart line. */
  function RetailRequest(item: CartItem, today: int): Inventory.SaleRequest {
    Inventory.SaleRequest(CounterCustomer, Some(item.qty), Some(item.product.sellingPrice), item.product.name, Some(today))
  }

  /** `checkoutRetail`: refused for an empty cart, otherwise one request per line, in cart order. */
  function CheckoutRetail(cart: seq<CartItem>, today: int): (r: Result<seq<Inventory.SaleRequest>, PosError>)
    ensures |cart| == 0 <==> r == Err(CartEmpty)
    ensures r.Ok? ==> |r.value| == |cart|
    ensures r.Ok? ==> forall i :: 0 <= i < |cart| ==>
              && r.value[i].productName == cart[i].product.name
              && r.value[i].quantity == Some(cart[i].qty)
              && r.value[i].rate == Some(cart[i].product.sellingPrice)
              && r.value[i].customerName == CounterCustomer
  {
    if |cart| == 0 then Err(CartEmpty)
    else Ok(Map(cart, (item: CartItem) => RetailRequest(item, today)))
  }

  /** Posting the checkout requests to the sale handler books every line
      exactly when every product is in the inventory, and then the booked
      totals add up to the invoice total. */
  lemma InvoiceMatchesBookedSales(
    cart: seq<CartItem>, today: int, s: Inventory.Store, ids: seq<string>, now: int)
    requires |cart| > 0 && |ids| == |cart|
    ensures var post := Inventory.PostSales(s, CheckoutRetail(cart, today).value, ids, now);
            && (post.response.Ok? <==>
                  forall i :: 0 <= i < |cart| ==> cart[i].product.name == "" || cart[i].product.name in s.products)
            && (post.response.Ok? ==> SumBy(post.response.value, SaleAmount) == RetailTotal(cart))
  {
    RetailPosted(cart, today, s.products, Inventory.PostSales(s, CheckoutRetail(cart, today).value, ids, now));
  }

  /** The checkout posts exactly each line's own request. */
  lemma CheckoutRequests(cart: seq<CartItem>, today: int)
    requires |cart| > 0
    ensures var reqs := CheckoutRetail(cart, today).value;
            |reqs| == |cart| && forall i :: 0 <= i < |cart| ==> reqs[i] == RetailRequest(cart[i], today)
  {
  }

  /** What the sale handler's answer to the checkout requests says about the cart. */
  lemma {:induction false} RetailPosted(
    cart: seq<CartItem>, today: int, products: map<string, Product>,
    post: Step<Inventory.Store, seq<Sale>, Inventory.InventoryError>)
    requires |cart| > 0
    requires var reqs := CheckoutRetail(cart, today).value;
             && (post.response.Ok? <==> forall i :: 0 <= i < |reqs| ==> Inventory.Bookable(products, reqs[i]))
             && (post.response.Ok? ==>
                   && |post.response.value| == |reqs|
                   && forall i :: 0 <= i < |reqs| ==>
                        post.response.value[i].totalAmount == reqs[i].quantity.value * reqs[i].rate.value)
    ensures post.response.Ok? <==>
              forall i :: 0 <= i < |cart| ==> cart[i].product.name == "" || cart[i].product.name in products
    ensures post.response.Ok? ==> SumBy(post.response.value, SaleAmount) == RetailTotal(cart)
  {
    var reqs := CheckoutRetail(cart, today).value;
    CheckoutRequests(cart, today);
    CartRequestsBookable(cart, reqs, today, products);
    if post.response.Ok? {
      var sales := post.response.value;
      forall i | 0 <= i < |cart|
        ensures SaleAmount(sales[i]) == LineAmount(cart[i])
      {
        assert reqs[i] == RetailRequest(cart[i], today);
      }
      CartBookedSum(cart, sales);
    }
  }

  /** The checkout requests are all booked exactly when every cart product is known. */
  lemma CartRequestsBookable(cart: seq<CartItem>, reqs: seq<Inventory.SaleRequest>, today: int, products: map<string, Product>)
    requires |reqs| == |cart|
    requires forall i :: 0 <= i < |cart| ==> reqs[i] == RetailRequest(cart[i], today)
    ensures (forall i :: 0 <= i < |reqs| ==> Inventory.Bookable(products, reqs[i]))
        <==> (forall i :: 0 <= i < |cart| ==> cart[i].product.name == "" || cart[i].product.name in products)
  {
    assert forall i :: 0 <= i < |cart| ==>
             (Inventory.Bookable(products, reqs[i]) <==> cart[i].product.name == "" || cart[i].product.name in products);
  }

  /** Sales booked at each cart line's amount add up to the cart total. */
  lemma CartBookedSum(cart: seq<CartItem>, sales: seq<Sale>)
    requires |sales| == |cart|
    requires forall i :: 0 <= i < |cart| ==> SaleAmount(sales[i]) == LineAmount(cart[i])
    ensures SumBy(sales, SaleAmount) == RetailTotal(cart)
  {
    SumByPointwise(sales, SaleAmount, cart, LineAmount);
  }

  /** A wholesale form value: text from an input box, or the number the
      product picker presets as the rate. */
  datatype FormValue = Text(text: string, parsed: Option<real>) | Number(n: real)
  {
    /** JavaScript truthiness: non-empty text, or a non-zero number. */
    predicate Truthy() {
      match this
      case Text(t, _) => t != ""
      case Number(n) => n != 0.0
    }

    /** `parseFloat`; `None` is NaN. */
    function Parsed(): Option<real> {
      match this
      case Text(_, p) => p
      case Number(n) => Some(n)
    }
  }

  const BlankValue: FormValue := Text("", None)

  datatype ItemForm = ItemForm(productName: string, quantity: FormValue, rate: FormValue)

  const BlankItem: ItemForm := ItemForm("", BlankValue, BlankValue)

  /** A bill line; `total` is `None` when a quantity or rate did not parse (NaN). */
  datatype BillItem = BillItem(productName: string, quantity: FormValue, rate: FormValue, total: Option<real>, id: int)

  datatype Wholesale = Wholesale(customerName: string, bill: seq<BillItem>, current: ItemForm)

  /** Picking a product in the selector presets the rate to its price, or
      clears the rate when nothing is picked. */
  function SelectProduct(w: Wholesale, products: seq<ShopProduct>, name: string): (r: Wholesale)
    ensures r.bill == w.bill && r.customerName == w.customerName
    ensures r.current.productName == name && r.current.quantity == w.current.quantity
    ensures forall i :: 0 <= i < |products| && products[i].name == name
              && (forall j :: 0 <= j < i ==> products[j].name != name)
              ==> r.current.rate == Number(products[i].sellingPrice)
    ensures (forall i :: 0 <= i < |products| ==> products[i].name != name) ==> r.current.rate == BlankValue
  {
    var rate := FirstPrice(products, name);
    w.(current := ItemForm(name, w.current.quantity, if rate.Some? then Number(rate.value) else BlankValue))
  }

  /** `products.find(p => p.name === name)?.sellingPrice`. */
  function FirstPrice(products: seq<ShopProduct>, name: string): (r: Option<real>)
    ensures r.Some? <==> exists i :: 0 <= i < |products| && products[i].name == name
    ensures r.Some? ==> exists i :: 0 <= i < |products| && products[i].name == name && products[i].sellingPrice == r.value
                          && forall j :: 0 <= j < i ==> products[j].name != name
  {
    if |products| == 0 then None
    else if products[0].name == name then Some(products[0].sellingPrice)
    else
      var r := FirstPrice(products[1..], name);
      assert forall i :: 1 <= i < |products| ==> products[i] == products[1..][i - 1];
      r
  }

  function LineTotal(quantity: FormValue, rate: FormValue): (r: Option<real>)
    ensures r.Some? <==> quantity.Parsed().Some? && rate.Parsed().Some?
    ensures r.Some? ==> r.value == quantity.Parsed().value * rate.Parsed().value
  {
    if quantity.Parsed().Some? && rate.Parsed().Some? then Some(quantity.Parsed().value * rate.Parsed().value)
    else None
  }

  /** Every line's total is its quantity times its rate (NaN when either is). */
  predicate BillConsistent(bill: seq<BillItem>) {
    forall i :: 0 <= i < |bill| ==> bill[i].total == LineTotal(bill[i].quantity, bill[i].rate)
  }

  /** `addItemToBill`: refused unless product, quantity and rate are all
      filled in; otherwise one line is appended and the item form cleared. */
  function AddItemToBill(w: Wholesale, id: int): (r: Result<Wholesale, PosError>)
    ensures r.Err? <==> w.current.productName == "" || !w.current.quantity.Truthy() || !w.current.rate.Truthy()
    ensures r.Err? ==> r.error == FillAllFields
    ensures r.Ok? ==>
              && r.value.customerName == w.customerName
              && r.value.current == BlankItem
              && r.value.bill == w.bill + [BillItem(w.current.productName, w.current.quantity, w.current.rate,
                                                   LineTotal(w.current.quantity, w.current.rate), id)]
    ensures r.Ok? && BillConsistent(w.bill) ==> BillConsistent(r.value.bill)
  {
    var c := w.current;
    if c.productName == "" || !c.quantity.Truthy() || !c.rate.Truthy() then Err(FillAllFields)
    else Ok(Wholesale(w.customerName, w.bill + [BillItem(c.productName, c.quantity, c.rate, LineTotal(c.quantity, c.rate), id)], BlankItem))
  }

  /** A product priced 0 cannot be billed at its preset rate, yet the same
      rate typed as "0" is accepted: the check looks at truthiness, not value. */
  lemma ZeroRateQuirk(w: Wholesale, id: int)
    requires w.current.productName != "" && w.current.quantity.Truthy()
    ensures AddItemToBill(w.(current := w.current.(rate := Number(0.0))), id).Err?
    ensures AddItemToBill(w.(current := w.current.(rate := Text("0", Some(0.0)))), id).Ok?
  {
  }

  /** `removeBillItem`. */
  function RemoveBillItem(bill: seq<BillItem>, id: int): (r: seq<BillItem>)
    ensures BillConsistent(bill) ==> BillConsistent(r)
    ensures IsSubsequence(r, bill)
    ensures forall i :: 0 <= i < |r| ==> r[i].id != id
    ensures forall i :: 0 <= i < |bill| && bill[i].id != id ==> bill[i] in r
  {
    Filter(bill, (b: BillItem) => b.id != id)
  }

  /** `wholesaleTotal`: the sum of the line totals, NaN when any line is. */
  function WholesaleTotal(bill: seq<BillItem>): (r: Option<real>)
    ensures r.Some? <==> forall i :: 0 <= i < |bill| ==> bill[i].total.Some?
    decreases |bill|
  {
    if |bill| == 0 then Some(0.0)
    else
      var rest := WholesaleTotal(bill[1..]);
      assert forall i :: 1 <= i < |bill| ==> bill[i] == bill[1..][i - 1];
      if bill[0].total.Some? && rest.Some? then Some(bill[0].total.value + rest.value) else None
  }

  function BillLineTotal(b: BillItem): real { OrZero(b.total) }

  /** When every line parses, the bill total is the sum of the line totals. */
  lemma {:induction false} WholesaleTotalSums(bill: seq<BillItem>)
    requires forall i :: 0 <= i < |bill| ==> bill[i].total.Some?
    ensures WholesaleTotal(bill) == Some(SumBy(bill, BillLineTotal))
    decreases |bill|
  {
    if |bill| > 0 {
      assert forall i :: 0 <= i < |bill[1..]| ==> bill[1..][i] == bill[i + 1];
      WholesaleTotalSums(bill[1..]);
    }
  }

  /** The sale request posted for one bill line. */
  function WholesaleRequest(customer: string, b: BillItem, today: int): Inventory.SaleRequest {
    Inventory.SaleRequest(customer, b.quantity.Parsed(), b.rate.Parsed(), b.productName, Some(today))
  }

  /** `finalizeWholesaleBill`: a customer name and at least one line are
      required; then one request per line, in bill order. */
  function FinalizeWholesale(w: Wholesale, today: int): (r: Result<seq<Inventory.SaleRequest>, PosError>)
    ensures w.customerName == "" <==> r == Err(CustomerRequired)
    ensures w.customerName != "" && |w.bill| == 0 <==> r == Err(NoItems)
    ensures r.Ok? ==> |r.value| == |w.bill|
    ensures r.Ok? ==> forall i :: 0 <= i < |w.bill| ==>
              && r.value[i].customerName == w.customerName
              && r.value[i].productName == w.bill[i].productName
              && r.value[i].quantity == w.bill[i].quantity.Parsed()
              && r.value[i].rate == w.bill[i].rate.Parsed()
  {
    if w.customerName == "" then Err(CustomerRequired)
    else if |w.bill| == 0 then Err(NoItems)
    else Ok(Map(w.bill, (b: BillItem) => WholesaleRequest(w.customerName, b, today)))
  }

  /** Posting a finalized bill to the sale handler books every line exactly
      when every line's product is in the inventory and its numbers parse,
      and then the booked totals add up to the bill total. */
  lemma BookedMatchesBill(
    w: Wholesale, today: int, s: Inventory.Store, ids: seq<string>, now: int)
    requires w.customerName != "" && |w.bill| > 0 && |ids| == |w.bill|
    requires BillConsistent(w.bill)
    ensures var post := Inventory.PostSales(s, FinalizeWholesale(w, today).value, ids, now);
            && (post.response.Ok? <==>
                  forall i :: 0 <= i < |w.bill| ==>
                    (w.bill[i].productName == "" || w.bill[i].productName in s.products) && w.bill[i].total.Some?)
            && (post.response.Ok? ==> WholesaleTotal(w.bill) == Some(SumBy(post.response.value, SaleAmount)))
  {
    BillPosted(w, today, s.products, Inventory.PostSales(s, FinalizeWholesale(w, today).value, ids, now));
  }

  /** Finalizing posts exactly each line's own request. */
  lemma FinalizeRequests(w: Wholesale, today: int)
    requires w.customerName != "" && |w.bill| > 0
    ensures var reqs := FinalizeWholesale(w, today).value;
            |reqs| == |w.bill| && forall i :: 0 <= i < |w.bill| ==> reqs[i] == WholesaleRequest(w.customerName, w.bill[i], today)
  {
  }

  /** What the sale handler's answer to the bill's requests says about the bill. */
  lemma {:induction false} BillPosted(
    w: Wholesale, today: int, products: map<string, Product>,
    post: Step<Inventory.Store, seq<Sale>, Inventory.InventoryError>)
    requires w.customerName != "" && |w.bill| > 0 && BillConsistent(w.bill)
    requires var reqs := FinalizeWholesale(w, today).value;
             && (post.response.Ok? <==> forall i :: 0 <= i < |reqs| ==> Inventory.Bookable(products, reqs[i]))
             && (post.response.Ok? ==>
                   && |post.response.value| == |reqs|
                   && forall i :: 0 <= i < |reqs| ==>
                        post.response.value[i].totalAmount == reqs[i].quantity.value * reqs[i].rate.value)
    ensures post.response.Ok? <==>
              forall i :: 0 <= i < |w.bill| ==>
                (w.bill[i].productName == "" || w.bill[i].productName in products) && w.bill[i].total.Some?
    ensures post.response.Ok? ==> WholesaleTotal(w.bill) == Some(SumBy(post.response.value, SaleAmount))
  {
    var reqs := FinalizeWholesale(w, today).value;
    FinalizeRequests(w, today);
    BillRequestsBookable(w, reqs, today, products);
    if post.response.Ok? {
      var sales := post.response.value;
      forall i | 0 <= i < |w.bill|
        ensures w.bill[i].total.Some? && SaleAmount(sales[i]) == BillLineTotal(w.bill[i])
      {
        assert reqs[i] == WholesaleRequest(w.customerName, w.bill[i], today);
      }
      BillBookedSum(w, sales);
    }
  }

  /** A bill line's request is booked exactly when its product is known and its numbers parse. */
  lemma BillRequestsBookable(w: Wholesale, reqs: seq<Inventory.SaleRequest>, today: int, products: map<string, Product>)
    requires BillConsistent(w.bill) && |reqs| == |w.bill|
    requires forall i :: 0 <= i < |w.bill| ==> reqs[i] == WholesaleRequest(w.customerName, w.bill[i], today)
    ensures (forall i :: 0 <= i < |reqs| ==> Inventory.Bookable(products, reqs[i]))
        <==> (forall i :: 0 <= i < |w.bill| ==>
                (w.bill[i].productName == "" || w.bill[i].productName in products) && w.bill[i].total.Some?)
  {
    assert forall i :: 0 <= i < |w.bill| ==>
             (Inventory.Bookable(products, reqs[i])
              <==> (w.bill[i].productName == "" || w.bill[i].productName in products) && w.bill[i].total.Some?);
  }

  /** Sales booked at each bill line's total add up to the bill total. */
  lemma BillBookedSum(w: Wholesale, sales: seq<Sale>)
    requires |sales| == |w.bill|
    requires forall i :: 0 <= i < |w.bill| ==>
               w.bill[i].total.Some? && SaleAmount(sales[i]) == BillLineTotal(w.bill[i])
    ensures WholesaleTotal(w.bill) == Some(SumBy(sales, SaleAmount))
  {
    WholesaleTotalSums(w.bill);
    SumByPointwise(sales, SaleAmount, w.bill, BillLineTotal);
  }

  /** The sales history pages. */
  function HistoryPage(history: seq<Sale>, page: int): (r: seq<Sale>)
    ensures |r| <= HistoryPerPage
  {
    PageRows(history, page, HistoryPerPage)
  }

  function HistoryPages(history: seq<Sale>): nat {
    TotalPages(|history|, HistoryPerPage)
  }

  /** The pager is shown only for more than one page of history. */
  predicate PagerShown(history: seq<Sale>) {
    |history| > HistoryPerPage
  }

  /** Whenever the pager is shown there are at least two pages. */
  lemma PagerMeansSeveralPages(history: seq<Sale>)
    requires PagerShown(history)
    ensures HistoryPages(history) >= 2
  {
  }
}
