/** The record shapes of the business ledger (types.ts) and the first-match
    lookups (`find` / `findIndex`) that every other module uses on them. */
module Types {

  /** A value that may be absent: "nothing stored yet", "not found". */
  datatype Option<+T> = None | Some(value: T) {
    function GetOr(default: T): T
    {
      if Some? then value else default
    }
  }

  datatype TransactionType = Sale | Purchase

  datatype PaymentMethod = Cash | Credit

  datatype Status = Completed | Pending

  /** Money and quantities are integers: the source's JavaScript numbers
      without their fractional part. */
  datatype Product = Product(
    id: string,
    name: string,
    sku: string,
    price: int,
    cost: int,
    stock: int,
    minStockLevel: int,
    unit: string)

  datatype TransactionItem = TransactionItem(
    productId: string,
    productName: string,
    quantity: int,
    priceAtMoment: int,
    total: int)

  /** `type` is a Dafny keyword, so the transaction's type is the field `kind`. */
  datatype Transaction = Transaction(
    id: string,
    date: string,
    kind: TransactionType,
    items: seq<TransactionItem>,
    totalAmount: int,
    paymentMethod: PaymentMethod,
    counterparty: string,
    status: Status,
    referenceNumber: string)

  /** `products.findIndex(p => p.id === id)`: the first position holding
      the id, or None where JavaScript answers -1. */
  function FindProductIndex(ps: seq<Product>, id: string): (r: Option<nat>)
    ensures r.Some? ==> r.value < |ps| && ps[r.value].id == id
    ensures r.Some? ==> forall k :: 0 <= k < r.value ==> ps[k].id != id
    ensures r.None? <==> forall k :: 0 <= k < |ps| ==> ps[k].id != id
  {
    if ps == [] then None
    else if ps[0].id == id then Some(0)
    else match FindProductIndex(ps[1..], id)
      case None => None
      case Some(j) => Some(j + 1)
  }

  /** `products.find(p => p.id === id)`. */
  function FindProduct(ps: seq<Product>, id: string): (r: Option<Product>)
    ensures r.Some? ==> r.value in ps && r.value.id == id
    ensures r.Some? <==> FindProductIndex(ps, id).Some?
    ensures r.Some? ==> r.value == ps[FindProductIndex(ps, id).value]
    ensures r.None? <==> forall k :: 0 <= k < |ps| ==> ps[k].id != id
  {
    match FindProductIndex(ps, id)
    case None => None
    case Some(i) => Some(ps[i])
  }

  /** `items.find(i => i.productId === id)`, as a position. */
  function FindItemIndex(items: seq<TransactionItem>, id: string): (r: Option<nat>)
    ensures r.Some? ==> r.value < |items| && items[r.value].productId == id
    ensures r.Some? ==> forall k :: 0 <= k < r.value ==> items[k].productId != id
    ensures r.None? <==> forall k :: 0 <= k < |items| ==> items[k].productId != id
  {
    if items == [] then None
    else if items[0].productId == id then Some(0)
    else match FindItemIndex(items[1..], id)
      case None => None
      case Some(j) => Some(j + 1)
  }

  /** `items.find(i => i.productId === id)`. */
  function FindItem(items: seq<TransactionItem>, id: string): (r: Option<TransactionItem>)
    ensures r.Some? ==> r.value in items && r.value.productId == id
    ensures r.Some? <==> FindItemIndex(items, id).Some?
    ensures r.Some? ==> r.value == items[FindItemIndex(items, id).value]
    ensures r.None? <==> forall k :: 0 <= k < |items| ==> items[k].productId != id
  {
    match FindItemIndex(items, id)
    case None => None
    case Some(i) => Some(items[i])
  }

  /** No two products share an id. */
  predicate UniqueIds(ps: seq<Product>)
  {
    forall i, j :: 0 <= i < j < |ps| ==> ps[i].id != ps[j].id
  }

  /** With unique ids, looking a product up by its own id finds it. */
  lemma FindOwnId(ps: seq<Product>, k: nat)
    requires UniqueIds(ps) && k < |ps|
    ensures FindProductIndex(ps, ps[k].id) == Some(k)
    ensures FindProduct(ps, ps[k].id) == Some(ps[k])
  {
  }

  /** An item position that holds the id and has no earlier holder is what
      the first-match search returns. */
  lemma FindItemIndexIs(items: seq<TransactionItem>, id: string, i: nat)
    requires i < |items| && items[i].productId == id
    requires forall k :: 0 <= k < i ==> items[k].productId != id
    ensures FindItemIndex(items, id) == Some(i)
  {
  }

  /** A match inside a prefix is found there, whatever follows it. */
  lemma FindItemInPrefix(a: seq<TransactionItem>, c: seq<TransactionItem>, id: string)
    requires FindItemIndex(a, id).Some?
    ensures FindItemIndex(a + c, id) == FindItemIndex(a, id)
    ensures FindItem(a + c, id) == FindItem(a, id)
  {
    var i := FindItemIndex(a, id).value;
    assert (a + c)[i] == a[i];
    assert forall k :: 0 <= k < i ==> (a + c)[k] == a[k];
    FindItemIndexIs(a + c, id, i);
  }
}
