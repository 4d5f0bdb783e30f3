/** The point-of-sale cart rules (pages/Sales.tsx): adding a product caps
    its line at the product's stock, removing drops the product's line, the
    total adds up the lines, and checkout turns the cart into a SALE
    transaction. A cart built this way from the shown catalogue always
    passes the ledger's stock check. */
module Sales {
  import opened Types
  import opened Cart
  import Storage

  /** The line a first click adds: one unit at the selling price, with the
      product's name copied at that moment. */
  function NewLine(product: Product): (r: TransactionItem)
    ensures r.productId == product.id && r.productName == product.name
    ensures r.quantity == 1 && r.priceAtMoment == product.price
    ensures r.total == r.quantity * r.priceAtMoment
  {
    TransactionItem(product.id, product.name, 1, product.price, product.price)
  }

  /** `addToCart`: nothing for a product out of stock or whose line already
      holds the whole stock; otherwise one more unit on its line, or a new
      line at the end. */
  function AddToCart(cart: seq<TransactionItem>, product: Product): (r: seq<TransactionItem>)
    ensures product.stock <= 0 ==> r == cart
    ensures (match FindItem(cart, product.id) case None => false case Some(l) => l.quantity >= product.stock) ==> r == cart
    ensures |r| == |cart| || |r| == |cart| + 1
  {
    if product.stock <= 0 then cart
    else match FindItem(cart, product.id)
      case Some(existing) => if existing.quantity >= product.stock then cart else Bump(cart, product.id)
      case None => cart + [NewLine(product)]
  }

  /** A product with stock and no line yet gets a line of its own at the end. */
  lemma AddToCartAppends(cart: seq<TransactionItem>, product: Product)
    requires product.stock > 0
    requires forall k :: 0 <= k < |cart| ==> cart[k].productId != product.id
    ensures AddToCart(cart, product) == cart + [TransactionItem(product.id, product.name, 1, product.price, product.price)]
  {
  }

  /** Below the stock limit, the product's line gains one unit and its total
      is recomputed; every other line stays where and as it was. */
  lemma AddToCartIncrements(cart: seq<TransactionItem>, product: Product, k: nat)
    requires UniqueLines(cart) && k < |cart| && cart[k].productId == product.id
    requires 0 < product.stock && cart[k].quantity < product.stock
    ensures AddToCart(cart, product) == cart[k := Incremented(cart[k])]
  {
    FindItemIndexIs(cart, product.id, k);
    AddToCartBumps(cart, product);
    BumpUnique(cart, k);
  }

  /** Below the stock limit the click goes to the product's line. */
  lemma AddToCartBumps(cart: seq<TransactionItem>, product: Product)
    requires 0 < product.stock
    requires FindItem(cart, product.id).Some? && FindItem(cart, product.id).value.quantity < product.stock
    ensures AddToCart(cart, product) == Bump(cart, product.id)
  {
  }

  /** Adding keeps one line per product and every line priced. */
  lemma AddToCartKeepsWellFormed(cart: seq<TransactionItem>, product: Product)
    requires WellFormed(cart)
    ensures WellFormed(AddToCart(cart, product))
  {
    if product.stock > 0 {
      match FindItem(cart, product.id)
      case Some(existing) => BumpKeepsWellFormed(cart, product.id);
      case None =>
        var r := cart + [NewLine(product)];
        assert forall k :: 0 <= k < |cart| ==> r[k] == cart[k];
    }
  }

  /** Adding never takes the product's line above the product's stock: the
      line either was left as it was or now holds at most the stock. */
  lemma AddToCartWithinStock(cart: seq<TransactionItem>, product: Product)
    requires UniqueLines(cart)
    ensures forall k :: 0 <= k < |AddToCart(cart, product)| && AddToCart(cart, product)[k].productId == product.id ==>
              AddToCart(cart, product)[k].quantity <= product.stock || (k < |cart| && AddToCart(cart, product)[k] == cart[k])
  {
  }

  /** On a well-formed cart a click that changes the cart raises its total
      by the unit price of the product's line. */
  lemma AddToCartTotal(cart: seq<TransactionItem>, product: Product)
    requires WellFormed(cart)
    ensures var r := AddToCart(cart, product);
            r == cart || (FindItem(r, product.id).Some? && Total(r) == Total(cart) + FindItem(r, product.id).value.priceAtMoment)
  {
    var r := AddToCart(cart, product);
    if r != cart {
      match FindItemIndex(cart, product.id)
      case Some(k) =>
        assert FindItem(cart, product.id) == Some(cart[k]);
        assert r == Bump(cart, product.id);
        BumpUnique(cart, k);
        var line := Incremented(cart[k]);
        assert r == cart[k := line];
        TotalUpdate(cart, k, line);
        IncrementedTotal(cart[k]);
        FindItemIndexIs(r, product.id, k);
      case None =>
        assert r == cart + [NewLine(product)];
        TotalAppend(cart, [NewLine(product)]);
        assert Total([NewLine(product)]) == product.price;
        assert forall j :: 0 <= j < |cart| ==> r[j] == cart[j];
        FindItemIndexIs(r, product.id, |cart|);
    }
  }

  /** `removeFromCart`: the product's lines go, the rest keep their order,
      and on a cart with one line per product the total drops by that
      line's total. */
  lemma RemoveFromCartTotal(cart: seq<TransactionItem>, id: string)
    requires WellFormed(cart)
    ensures WellFormed(Without(cart, id))
    ensures forall x :: x in Without(cart, id) <==> x in cart && x.productId != id
    ensures Total(Without(cart, id)) == Total(cart) - (match FindItem(cart, id) case None => 0 case Some(l) => l.total)
  {
    WithoutKeepsWellFormed(cart, id);
    WithoutMembers(cart, id);
    TotalWithout(cart, id);
  }

  /** `handleCheckout`: nothing when the cart or the customer name is
      empty; otherwise a completed SALE of the cart to that customer, for
      the cart's total, numbered INV- and the given stamp. The id, date and
      stamp come from the clock and a random generator. */
  function Checkout(cart: seq<TransactionItem>, customer: string, paymentMethod: PaymentMethod,
                    id: string, date: string, stamp: string): (r: Option<Transaction>)
    ensures r.None? <==> |cart| == 0 || |customer| == 0
    ensures r.Some? ==> r.value.kind == Sale && r.value.items == cart && r.value.totalAmount == Total(cart)
    ensures r.Some? ==> r.value.paymentMethod == paymentMethod && r.value.counterparty == customer
    ensures r.Some? ==> r.value.status == Completed && r.value.referenceNumber == "INV-" + stamp
  {
    if |cart| == 0 || |customer| == 0 then None
    else Some(Transaction(id, date, Sale, cart, Total(cart), paymentMethod, customer, Completed, "INV-" + stamp))
  }

  // ---------------------------------------------------------------------
  // The cart against the ledger

  /** What the cashier does to the cart: click a catalogue product, or
      remove a product's line. */
  datatype CartAction = Add(product: Product) | Remove(productId: string)

  function Perform(cart: seq<TransactionItem>, action: CartAction): seq<TransactionItem>
  {
    match action
    case Add(p) => AddToCart(cart, p)
    case Remove(id) => Without(cart, id)
  }

  /** The cart after the cashier's actions, in order. */
  function Session(cart: seq<TransactionItem>, actions: seq<CartAction>): seq<TransactionItem>
    decreases |actions|
  {
    if actions == [] then cart else Session(Perform(cart, actions[0]), actions[1..])
  }

  /** One click on a catalogue product keeps the cart within the stock
      that the ledger checks. */
  lemma AddKeepsSaleAllowed(ps: seq<Product>, cart: seq<TransactionItem>, product: Product)
    requires UniqueIds(ps) && product in ps
    requires UniqueLines(cart) && Storage.SaleAllowed(ps, cart)
    ensures Storage.SaleAllowed(ps, AddToCart(cart, product))
  {
    var k :| 0 <= k < |ps| && ps[k] == product;
    FindOwnId(ps, k);
    var r := AddToCart(cart, product);
    AddToCartWithinStock(cart, product);
    forall j | 0 <= j < |r| ensures Storage.InStock(ps, r[j]) {
      if j < |cart| && r[j] == cart[j] {
        assert Storage.InStock(ps, cart[j]);
      }
    }
  }

  /** Removing lines keeps the cart within the stock that the ledger checks. */
  lemma RemoveKeepsSaleAllowed(ps: seq<Product>, cart: seq<TransactionItem>, id: string)
    requires Storage.SaleAllowed(ps, cart)
    ensures Storage.SaleAllowed(ps, Without(cart, id))
  {
    var r := Without(cart, id);
    WithoutMembers(cart, id);
    forall j | 0 <= j < |r| ensures Storage.InStock(ps, r[j]) {
      assert r[j] in cart;
      var i :| 0 <= i < |cart| && cart[i] == r[j];
      assert Storage.InStock(ps, cart[i]);
    }
  }

  /** One action of either kind keeps the cart well formed and within stock. */
  lemma PerformKeepsSaleAllowed(ps: seq<Product>, cart: seq<TransactionItem>, action: CartAction)
    requires UniqueIds(ps) && (action.Add? ==> action.product in ps)
    requires WellFormed(cart) && Storage.SaleAllowed(ps, cart)
    ensures WellFormed(Perform(cart, action)) && Storage.SaleAllowed(ps, Perform(cart, action))
  {
    match action
    case Add(p) =>
      AddToCartKeepsWellFormed(cart, p);
      AddKeepsSaleAllowed(ps, cart, p);
    case Remove(id) =>
      WithoutKeepsWellFormed(cart, id);
      RemoveKeepsSaleAllowed(ps, cart, id);
  }

  /** Any sequence of clicks and removals on catalogue products, starting
      from a well-formed cart that passes the stock check, gives a
      well-formed cart that still passes it. */
  lemma {:induction false} SessionPassesStockCheck(ps: seq<Product>, cart: seq<TransactionItem>, actions: seq<CartAction>)
    requires UniqueIds(ps)
    requires forall i :: 0 <= i < |actions| && actions[i].Add? ==> actions[i].product in ps
    requires WellFormed(cart) && Storage.SaleAllowed(ps, cart)
    ensures WellFormed(Session(cart, actions)) && Storage.SaleAllowed(ps, Session(cart, actions))
    decreases |actions|
  {
    if actions != [] {
      PerformKeepsSaleAllowed(ps, cart, actions[0]);
      assert forall i :: 0 <= i < |actions[1..]| ==> actions[1..][i] == actions[i + 1];
      SessionPassesStockCheck(ps, Perform(cart, actions[0]), actions[1..]);
    }
  }

  /** Checking out a cart built on the page against the product list it
      shows always commits: the sale is recorded at the front of the
      ledger, revenue rises by the cart's total, and no product that had
      stock goes below zero. */
  lemma CheckoutCommits(ps: seq<Product>, ts: seq<Transaction>, actions: seq<CartAction>,
                        customer: string, paymentMethod: PaymentMethod, id: string, date: string, stamp: string)
    requires UniqueIds(ps)
    requires forall i :: 0 <= i < |actions| && actions[i].Add? ==> actions[i].product in ps
    requires Checkout(Session([], actions), customer, paymentMethod, id, date, stamp).Some?
    ensures var tx := Checkout(Session([], actions), customer, paymentMethod, id, date, stamp).value;
            var c := Storage.Commit(ps, ts, tx);
            c.Committed? && c.transactions == [tx] + ts
            && Storage.Summarize(c.transactions).revenue == Storage.Summarize(ts).revenue + Total(Session([], actions))
            && forall k :: 0 <= k < |ps| && ps[k].stock >= 0 ==> c.products[k].stock >= 0
  {
    var cart := Session([], actions);
    var tx := Checkout(cart, customer, paymentMethod, id, date, stamp).value;
    SessionPassesStockCheck(ps, [], actions);
    Storage.CommitUpdatesSummary(ps, ts, tx);
    Storage.SaleKeepsStockNonNegative(ps, ts, tx);
  }
}
