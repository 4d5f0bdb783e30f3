/** The purchase-order rules (pages/Purchasing.tsx): adding a product to
    the order (no stock cap, priced at cost), setting a line's quantity,
    removing a line, the reorder suggestions, and the PURCHASE transaction
    the order becomes. */
module Purchasing {
  import opened Types
  import opened Cart
  import Storage

  /** The line a first pick adds: one unit at the product's cost. */
  function NewLine(product: Product): (r: TransactionItem)
    ensures r.productId == product.id && r.productName == product.name
    ensures r.quantity == 1 && r.priceAtMoment == product.cost
    ensures r.total == r.quantity * r.priceAtMoment
  {
    TransactionItem(product.id, product.name, 1, product.cost, product.cost)
  }

  /** `addToPO`: one more unit on the product's line, or a new line at the end. */
  function AddToPO(cart: seq<TransactionItem>, product: Product): (r: seq<TransactionItem>)
    ensures |r| == |cart| || |r| == |cart| + 1
    ensures r != cart
  {
    match FindItem(cart, product.id)
    case Some(_) => Bump(cart, product.id)
    case None => cart + [NewLine(product)]
  }

  /** A product already on the order gets one more unit on every line of it,
      whatever its stock; every other line stays where and as it was. */
  lemma AddToPOIncrements(cart: seq<TransactionItem>, product: Product, k: nat)
    requires k < |cart| && cart[k].productId == product.id
    ensures |AddToPO(cart, product)| == |cart|
    ensures forall j :: 0 <= j < |cart| && cart[j].productId != product.id ==> AddToPO(cart, product)[j] == cart[j]
    ensures forall j :: 0 <= j < |cart| && cart[j].productId == product.id ==>
              AddToPO(cart, product)[j].quantity == cart[j].quantity + 1
              && AddToPO(cart, product)[j].total == (cart[j].quantity + 1) * cart[j].priceAtMoment
              && AddToPO(cart, product)[j].priceAtMoment == cart[j].priceAtMoment
  {
  }

  /** A product not on the order yet gets a line of its own at the end. */
  lemma AddToPOAppends(cart: seq<TransactionItem>, product: Product)
    requires forall k :: 0 <= k < |cart| ==> cart[k].productId != product.id
    ensures AddToPO(cart, product) == cart + [TransactionItem(product.id, product.name, 1, product.cost, product.cost)]
  {
  }

  /** Adding keeps one line per product and every line priced. */
  lemma AddToPOKeepsWellFormed(cart: seq<TransactionItem>, product: Product)
    requires WellFormed(cart)
    ensures WellFormed(AddToPO(cart, product))
  {
    match FindItem(cart, product.id)
    case Some(_) => BumpKeepsWellFormed(cart, product.id);
    case None =>
      var r := cart + [NewLine(product)];
      assert forall k :: 0 <= k < |cart| ==> r[k] == cart[k];
  }

  /** On a well-formed order every pick raises the total by the unit price
      of the product's line. */
  lemma AddToPOTotal(cart: seq<TransactionItem>, product: Product)
    requires WellFormed(cart)
    ensures var r := AddToPO(cart, product);
            FindItem(r, product.id).Some? && Total(r) == Total(cart) + FindItem(r, product.id).value.priceAtMoment
  {
    var r := AddToPO(cart, product);
    match FindItemIndex(cart, product.id)
    case Some(k) =>
      assert r == Bump(cart, product.id);
      BumpUnique(cart, k);
      var line := Incremented(cart[k]);
      TotalUpdate(cart, k, line);
      IncrementedTotal(cart[k]);
      FindItemIndexIs(r, product.id, k);
    case None =>
      assert r == cart + [NewLine(product)];
      TotalAppend(cart, [NewLine(product)]);
      assert Total([NewLine(product)]) == product.cost;
      assert forall j :: 0 <= j < |cart| ==> r[j] == cart[j];
      FindItemIndexIs(r, product.id, |cart|);
  }

  /** The line with the quantity set and its total recomputed. */
  function WithQuantity(line: TransactionItem, qty: int): (r: TransactionItem)
    ensures r.productId == line.productId && r.productName == line.productName
    ensures r.priceAtMoment == line.priceAtMoment && r.quantity == qty
    ensures r.total == r.quantity * r.priceAtMoment
  {
    line.(quantity := qty, total := qty * line.priceAtMoment)
  }

  /** `prev.map(item => item.productId === id ? <quantity qty> : item)`. */
  function SetQuantity(cart: seq<TransactionItem>, id: string, qty: int): (r: seq<TransactionItem>)
    ensures |r| == |cart|
    ensures forall k :: 0 <= k < |cart| ==>
              r[k] == if cart[k].productId == id then WithQuantity(cart[k], qty) else cart[k]
  {
    if cart == [] then []
    else [if cart[0].productId == id then WithQuantity(cart[0], qty) else cart[0]] + SetQuantity(cart[1..], id, qty)
  }

  /** `updateQuantity`: a quantity below 1 is ignored; otherwise every line
      of the product gets that quantity and the total for it, and every
      other line stays. */
  function UpdateQuantity(cart: seq<TransactionItem>, id: string, qty: int): (r: seq<TransactionItem>)
    ensures qty < 1 ==> r == cart
    ensures qty >= 1 ==> |r| == |cart|
    ensures qty >= 1 ==> forall k :: 0 <= k < |cart| && cart[k].productId == id ==>
              r[k].quantity == qty && r[k].total == qty * cart[k].priceAtMoment && r[k].priceAtMoment == cart[k].priceAtMoment
    ensures forall k :: 0 <= k < |cart| && cart[k].productId != id ==> r[k] == cart[k]
  {
    if qty < 1 then cart else SetQuantity(cart, id, qty)
  }

  /** Setting a quantity keeps one line per product and every line priced,
      and on a cart with one line per product it changes the total by that
      line's change. */
  lemma UpdateQuantityKeepsWellFormed(cart: seq<TransactionItem>, id: string, qty: int)
    requires WellFormed(cart)
    ensures WellFormed(UpdateQuantity(cart, id, qty))
    ensures qty >= 1 ==>
              Total(UpdateQuantity(cart, id, qty))
              == Total(cart) + (match FindItem(cart, id) case None => 0 case Some(l) => qty * l.priceAtMoment - l.total)
  {
    var r := UpdateQuantity(cart, id, qty);
    assert forall k :: 0 <= k < |cart| ==> r[k].productId == cart[k].productId;
    if qty >= 1 {
      match FindItemIndex(cart, id)
      case None =>
        assert r == cart;
      case Some(k) =>
        assert r == cart[k := WithQuantity(cart[k], qty)];
        TotalUpdate(cart, k, WithQuantity(cart[k], qty));
    }
  }

  /** `reorderSuggestions`: the products at or below their reorder point. */
  function ReorderSuggestions(ps: seq<Product>): (r: seq<Product>)
    ensures forall p :: p in r <==> p in ps && p.stock <= p.minStockLevel
    ensures |r| <= |ps|
  {
    if ps == [] then []
    else if ps[0].stock <= ps[0].minStockLevel then [ps[0]] + ReorderSuggestions(ps[1..])
    else ReorderSuggestions(ps[1..])
  }

  /** The suggestions keep the catalogue's order: the filter distributes
      over concatenation. */
  lemma {:induction false} ReorderSuggestionsConcat(a: seq<Product>, b: seq<Product>)
    ensures ReorderSuggestions(a + b) == ReorderSuggestions(a) + ReorderSuggestions(b)
  {
    if a == [] {
      assert a + b == b;
    } else {
      assert (a + b)[0] == a[0];
      assert (a + b)[1..] == a[1..] + b;
      ReorderSuggestionsConcat(a[1..], b);
    }
  }

  /** `handleCreatePO`: nothing when the order or the supplier name is
      empty; otherwise a completed PURCHASE on credit from that supplier,
      for the sum of the line totals, numbered PO- and the given stamp. The
      id, date and stamp come from the clock and a random generator. */
  function CreatePO(cart: seq<TransactionItem>, supplier: string, id: string, date: string, stamp: string): (r: Option<Transaction>)
    ensures r.None? <==> |cart| == 0 || |supplier| == 0
    ensures r.Some? ==> r.value.kind == Purchase && r.value.items == cart && r.value.totalAmount == Total(cart)
    ensures r.Some? ==> r.value.paymentMethod == Credit && r.value.counterparty == supplier
    ensures r.Some? ==> r.value.status == Completed && r.value.referenceNumber == "PO-" + stamp
  {
    if |cart| == 0 || |supplier| == 0 then None
    else Some(Transaction(id, date, Purchase, cart, Total(cart), Credit, supplier, Completed, "PO-" + stamp))
  }

  /** A purchase order always commits: it goes to the front of the ledger,
      and expenses and payables rise by the order's total while revenue and
      receivables stay. */
  lemma PurchaseOrderCommits(ps: seq<Product>, ts: seq<Transaction>, cart: seq<TransactionItem>,
                             supplier: string, id: string, date: string, stamp: string, tx: Transaction)
    requires CreatePO(cart, supplier, id, date, stamp) == Some(tx)
    ensures Storage.Commit(ps, ts, tx).Committed?
    ensures Storage.Commit(ps, ts, tx).transactions == [tx] + ts
    ensures Storage.Summarize([tx] + ts) ==
              Storage.Summarize(ts).(expenses := Storage.Summarize(ts).expenses + Total(cart),
                                     payables := Storage.Summarize(ts).payables + Total(cart))
  {
    Storage.SummaryPrepend(tx, ts);
  }

  /** On an order with one line per product, committing it raises every
      listed product's stock by its line's quantity. */
  lemma PurchaseOrderRestocks(ps: seq<Product>, ts: seq<Transaction>, cart: seq<TransactionItem>,
                              supplier: string, id: string, date: string, stamp: string, tx: Transaction)
    requires CreatePO(cart, supplier, id, date, stamp) == Some(tx) && UniqueLines(cart)
    ensures forall k, j :: 0 <= k < |ps| && 0 <= j < |cart| && cart[j].productId == ps[k].id ==>
              Storage.Commit(ps, ts, tx).products[k].stock == ps[k].stock + cart[j].quantity
  {
    forall k, j | 0 <= k < |ps| && 0 <= j < |cart| && cart[j].productId == ps[k].id
      ensures Storage.Commit(ps, ts, tx).products[k].stock == ps[k].stock + cart[j].quantity
    {
      Storage.FirstItemApplied(ps, tx, k, j);
    }
  }
}
