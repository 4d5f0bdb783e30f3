/** The transaction-inventory ledger (services/storage.ts): the seed
    catalogue, the product upsert, the all-or-nothing stock check for
    sales, the per-product stock update, the newest-first ledger and the
    financial summary folded over it, and `StorageService`, the store that
    holds the two persisted collections. */
module Storage {
  import opened Types

  /** The four products written on first use. */
  const INITIAL_PRODUCTS: seq<Product> := [
    Product("1", "Kopi Arabika Premium", "COF-001", 75000, 45000, 50, 10, "kg"),
    Product("2", "Gula Aren Organik", "SGR-002", 25000, 15000, 100, 20, "pack"),
    Product("3", "Paper Cup 12oz", "PC-003", 1000, 500, 500, 100, "pcs"),
    Product("4", "Susu UHT Full Cream", "MLK-004", 18000, 14000, 5, 12, "liter")
  ]

  /** The message of the error a rejected sale throws, before the product name. */
  const STOCK_ERROR := "Stok tidak cukup untuk "

  lemma InitialProductsUnique()
    ensures |INITIAL_PRODUCTS| == 4 && UniqueIds(INITIAL_PRODUCTS)
  {
  }

  // ---------------------------------------------------------------------
  // saveProduct: upsert by id

  /** `saveProduct`'s update of the list: overwrite the first entry with
      the product's id, or append the product when no entry has it. */
  function Upsert(ps: seq<Product>, p: Product): (r: seq<Product>)
    ensures p in r
    ensures |r| == |ps| || |r| == |ps| + 1
  {
    match FindProductIndex(ps, p.id)
    case Some(i) => assert ps[i := p][i] == p; ps[i := p]
    case None => ps + [p]
  }

  /** When the id is already present, the first entry holding it is
      replaced in place: same length, every other entry where it was. */
  lemma UpsertReplacesFirst(ps: seq<Product>, p: Product, i: nat)
    requires i < |ps| && ps[i].id == p.id
    requires forall k :: 0 <= k < i ==> ps[k].id != p.id
    ensures |Upsert(ps, p)| == |ps|
    ensures Upsert(ps, p)[i] == p
    ensures forall k :: 0 <= k < |ps| && k != i ==> Upsert(ps, p)[k] == ps[k]
  {
    assert FindProductIndex(ps, p.id) == Some(i);
  }

  /** When no entry has the id, the product is appended after all of them. */
  lemma UpsertAppends(ps: seq<Product>, p: Product)
    requires forall k :: 0 <= k < |ps| ==> ps[k].id != p.id
    ensures |Upsert(ps, p)| == |ps| + 1
    ensures Upsert(ps, p)[..|ps|] == ps && Upsert(ps, p)[|ps|] == p
  {
  }

  /** Reading back after an upsert: the id now finds the saved product,
      every other id finds what it found before, and ids stay unique. */
  lemma UpsertLookup(ps: seq<Product>, p: Product, id: string)
    requires UniqueIds(ps)
    ensures UniqueIds(Upsert(ps, p))
    ensures FindProduct(Upsert(ps, p), p.id) == Some(p)
    ensures id != p.id ==> FindProduct(Upsert(ps, p), id) == FindProduct(ps, id)
  {
    var r := Upsert(ps, p);
    match FindProductIndex(ps, p.id)
    case Some(i) =>
      assert forall k :: 0 <= k < |r| ==> r[k].id == ps[k].id;
      FindOwnId(r, i);
      if id != p.id {
        match FindProductIndex(ps, id)
        case Some(j) => FindOwnId(ps, j); FindOwnId(r, j);
        case None =>
      }
    case None =>
      assert forall k :: 0 <= k < |ps| ==> r[k] == ps[k];
      FindOwnId(r, |ps|);
      if id != p.id {
        match FindProductIndex(ps, id)
        case Some(j) => FindOwnId(ps, j); FindOwnId(r, j);
        case None =>
      }
  }

  // ---------------------------------------------------------------------
  // createTransaction: stock validation for sales

  /** One sale item passes the check: the first product with its id
      exists and has at least the item's quantity in stock. */
  predicate InStock(ps: seq<Product>, item: TransactionItem)
  {
    match FindProduct(ps, item.productId)
    case None => false
    case Some(p) => p.stock >= item.quantity
  }

  /** The check in positional terms: an item passes exactly when some
      product holds its id, no earlier product does, and that product has
      at least the item's quantity; an item for a missing product fails. */
  lemma InStockMeans(ps: seq<Product>, item: TransactionItem)
    ensures InStock(ps, item) <==>
              exists k :: 0 <= k < |ps| && ps[k].id == item.productId && ps[k].stock >= item.quantity
                          && (forall j :: 0 <= j < k ==> ps[j].id != item.productId)
    ensures (forall k :: 0 <= k < |ps| ==> ps[k].id != item.productId) ==> !InStock(ps, item)
  {
    match FindProductIndex(ps, item.productId)
    case None =>
    case Some(i) =>
      assert FindProduct(ps, item.productId) == Some(ps[i]);
      forall k | 0 <= k < |ps| && ps[k].id == item.productId && (forall j :: 0 <= j < k ==> ps[j].id != item.productId)
        ensures k == i
      {
      }
  }

  /** Every item of the sale passes the check. */
  predicate SaleAllowed(ps: seq<Product>, items: seq<TransactionItem>)
  {
    forall i :: 0 <= i < |items| ==> InStock(ps, items[i])
  }

  /** The position of the first item that fails the check, if any. */
  function FirstShortfall(ps: seq<Product>, items: seq<TransactionItem>): (r: Option<nat>)
    ensures r.None? <==> SaleAllowed(ps, items)
    ensures r.Some? ==> r.value < |items| && !InStock(ps, items[r.value])
    ensures r.Some? ==> forall i :: 0 <= i < r.value ==> InStock(ps, items[i])
  {
    if items == [] then None
    else if !InStock(ps, items[0]) then Some(0)
    else match FirstShortfall(ps, items[1..])
      case None => None
      case Some(j) => Some(j + 1)
  }

  /** The `for ... of` loop over a sale's items: the name of the first item
      whose product is missing or short of stock, or None when all pass. */
  method ValidateSale(ps: seq<Product>, items: seq<TransactionItem>) returns (shortfall: Option<string>)
    ensures shortfall.None? <==> SaleAllowed(ps, items)
    ensures FirstShortfall(ps, items).Some? ==>
              shortfall == Some(items[FirstShortfall(ps, items).value].productName)
  {
    var i := 0;
    while i < |items|
      invariant 0 <= i <= |items|
      invariant forall k :: 0 <= k < i ==> InStock(ps, items[k])
    {
      var product := FindProduct(ps, items[i].productId);
      if product.None? || product.value.stock < items[i].quantity {
        return Some(items[i].productName);
      }
      i := i + 1;
    }
    return None;
  }

  // ---------------------------------------------------------------------
  // createTransaction: stock update

  /** One product after the transaction: changed by the quantity of the
      first item naming it, down for a sale and up for a purchase. */
  function Adjusted(p: Product, tx: Transaction): (r: Product)
    ensures r == p.(stock := r.stock)
    ensures FindItem(tx.items, p.id).None? ==> r == p
    ensures FindItem(tx.items, p.id).Some? ==>
              r.stock == p.stock + (if tx.kind == Sale then -FindItem(tx.items, p.id).value.quantity
                                    else FindItem(tx.items, p.id).value.quantity)
  {
    match FindItem(tx.items, p.id)
    case None => p
    case Some(item) =>
      p.(stock := if tx.kind == Sale then p.stock - item.quantity else p.stock + item.quantity)
  }

  /** `products.map(...)`: every product adjusted, in the same order, and
      nothing but the stock changed. */
  function ApplyStock(ps: seq<Product>, tx: Transaction): (r: seq<Product>)
    ensures |r| == |ps|
    ensures forall k :: 0 <= k < |ps| ==> r[k] == Adjusted(ps[k], tx)
    ensures forall k :: 0 <= k < |ps| ==> r[k] == ps[k].(stock := r[k].stock)
  {
    if ps == [] then [] else [Adjusted(ps[0], tx)] + ApplyStock(ps[1..], tx)
  }

  /** The first item naming a product decides its new stock. */
  lemma FirstItemApplied(ps: seq<Product>, tx: Transaction, k: nat, i: nat)
    requires k < |ps| && i < |tx.items| && tx.items[i].productId == ps[k].id
    requires forall j :: 0 <= j < i ==> tx.items[j].productId != ps[k].id
    ensures tx.kind == Sale ==> ApplyStock(ps, tx)[k].stock == ps[k].stock - tx.items[i].quantity
    ensures tx.kind == Purchase ==> ApplyStock(ps, tx)[k].stock == ps[k].stock + tx.items[i].quantity
  {
    assert FindItemIndex(tx.items, ps[k].id) == Some(i);
  }

  /** A product no item names is left exactly as it was. */
  lemma UnnamedProductUnchanged(ps: seq<Product>, tx: Transaction, k: nat)
    requires k < |ps|
    requires forall i :: 0 <= i < |tx.items| ==> tx.items[i].productId != ps[k].id
    ensures ApplyStock(ps, tx)[k] == ps[k]
  {
  }

  /** The stock update keeps every id where it was, so unique ids stay unique. */
  lemma ApplyStockKeepsUniqueIds(ps: seq<Product>, tx: Transaction)
    requires UniqueIds(ps)
    ensures UniqueIds(ApplyStock(ps, tx))
  {
    var r := ApplyStock(ps, tx);
    assert forall k :: 0 <= k < |ps| ==> r[k].id == ps[k].id;
  }

  /** Inserting an item for another product does not change which item
      the search finds for this id. */
  lemma FindItemSkips(a: seq<TransactionItem>, it: TransactionItem, b: seq<TransactionItem>, id: string)
    requires it.productId != id
    ensures FindItem(a + [it] + b, id) == FindItem(a + b, id)
  {
    var s1, s2 := a + [it] + b, a + b;
    assert forall x :: 0 <= x < |a| ==> s1[x] == s2[x];
    assert forall x :: |a| < x < |s1| ==> s1[x] == s2[x - 1];
    match FindItemIndex(s2, id)
    case None =>
      assert forall x :: 0 <= x < |s1| ==> s1[x].productId != id by {
        forall x | 0 <= x < |s1| ensures s1[x].productId != id {
          if x > |a| { assert s1[x] == s2[x - 1]; }
        }
      }
    case Some(j) =>
      var i := if j < |a| then j else j + 1;
      assert s1[i] == s2[j];
      forall x | 0 <= x < i ensures s1[x].productId != id {
        if x > |a| { assert s1[x] == s2[x - 1]; }
      }
      FindItemIndexIs(s1, id, i);
  }

  /** An item repeating an id already matched in the prefix is never found. */
  lemma FindItemRepeated(a: seq<TransactionItem>, it: TransactionItem, b: seq<TransactionItem>, id: string)
    requires FindItemIndex(a, id).Some?
    ensures FindItem(a + [it] + b, id) == FindItem(a + b, id)
  {
    FindItemInPrefix(a, [it] + b, id);
    FindItemInPrefix(a, b, id);
    assert a + [it] + b == a + ([it] + b);
  }

  /** An item whose product id matches no product changes no stock
      (a purchase of an unknown product is silently lost). */
  lemma UnknownItemIgnored(ps: seq<Product>, tx: Transaction, a: seq<TransactionItem>, it: TransactionItem, b: seq<TransactionItem>)
    requires forall k :: 0 <= k < |ps| ==> ps[k].id != it.productId
    ensures ApplyStock(ps, tx.(items := a + [it] + b)) == ApplyStock(ps, tx.(items := a + b))
  {
    forall k | 0 <= k < |ps| {
      FindItemSkips(a, it, b, ps[k].id);
    }
  }

  /** Only the first item per product id is applied: a later item for an
      id that already occurs changes nothing. */
  lemma RepeatedItemIgnored(ps: seq<Product>, tx: Transaction, a: seq<TransactionItem>, it: TransactionItem, b: seq<TransactionItem>, j: nat)
    requires j < |a| && a[j].productId == it.productId
    ensures ApplyStock(ps, tx.(items := a + [it] + b)) == ApplyStock(ps, tx.(items := a + b))
  {
    forall k | 0 <= k < |ps| ensures FindItem(a + [it] + b, ps[k].id) == FindItem(a + b, ps[k].id) {
      if ps[k].id == it.productId {
        FindItemRepeated(a, it, b, ps[k].id);
      } else {
        FindItemSkips(a, it, b, ps[k].id);
      }
    }
  }

  // ---------------------------------------------------------------------
  // createTransaction: the whole commit

  /** The stored state after `createTransaction`, or the name of the item
      that made a sale fail. */
  datatype CommitResult =
    | Committed(products: seq<Product>, transactions: seq<Transaction>)
    | Rejected(productName: string)

  /** `createTransaction` on the stored product list and ledger: a sale is
      checked item by item before anything is written; a purchase is never
      checked; a committed transaction updates the stock and goes to the
      front of the ledger. The caller's totals are stored as given. */
  function Commit(ps: seq<Product>, ts: seq<Transaction>, tx: Transaction): (r: CommitResult)
    ensures r.Rejected? <==> tx.kind == Sale && !SaleAllowed(ps, tx.items)
    ensures r.Rejected? ==> exists j :: 0 <= j < |tx.items| && !InStock(ps, tx.items[j])
                              && (forall i :: 0 <= i < j ==> InStock(ps, tx.items[i]))
                              && r.productName == tx.items[j].productName
    ensures r.Committed? ==> r.transactions == [tx] + ts && r.products == ApplyStock(ps, tx)
  {
    if tx.kind == Sale && FirstShortfall(ps, tx.items).Some? then
      Rejected(tx.items[FirstShortfall(ps, tx.items).value].productName)
    else
      Committed(ApplyStock(ps, tx), [tx] + ts)
  }

  /** No oversell: with unique product ids, a committed sale leaves every
      product it names at a non-negative stock, and no product whose stock
      was non-negative goes below zero. */
  lemma {:induction false} SaleKeepsStockNonNegative(ps: seq<Product>, ts: seq<Transaction>, tx: Transaction)
    requires UniqueIds(ps) && tx.kind == Sale && Commit(ps, ts, tx).Committed?
    ensures forall k :: 0 <= k < |ps| && ps[k].stock >= 0 ==> Commit(ps, ts, tx).products[k].stock >= 0
    ensures forall k :: 0 <= k < |ps| && FindItemIndex(tx.items, ps[k].id).Some? ==>
              Commit(ps, ts, tx).products[k].stock >= 0
  {
    var r := Commit(ps, ts, tx).products;
    forall k | 0 <= k < |ps|
      ensures ps[k].stock >= 0 ==> r[k].stock >= 0
      ensures FindItemIndex(tx.items, ps[k].id).Some? ==> r[k].stock >= 0
    {
      match FindItemIndex(tx.items, ps[k].id)
      case None =>
      case Some(i) =>
        assert InStock(ps, tx.items[i]);
        FindOwnId(ps, k);
    }
  }

  /** A committed transaction keeps product ids unique. */
  lemma CommitKeepsUniqueIds(ps: seq<Product>, ts: seq<Transaction>, tx: Transaction)
    requires UniqueIds(ps) && Commit(ps, ts, tx).Committed?
    ensures UniqueIds(Commit(ps, ts, tx).products)
  {
    ApplyStockKeepsUniqueIds(ps, tx);
  }

  // ---------------------------------------------------------------------
  // getFinancialSummary

  datatype FinancialSummary = FinancialSummary(revenue: int, expenses: int, receivables: int, payables: int)

  const ZERO_SUMMARY := FinancialSummary(0, 0, 0, 0)

  /** The reducer: a sale adds to revenue (and to receivables when paid by
      credit); anything else adds to expenses (and to payables by credit). */
  function Step(acc: FinancialSummary, t: Transaction): FinancialSummary
  {
    if t.kind == Sale then
      acc.(revenue := acc.revenue + t.totalAmount,
           receivables := if t.paymentMethod == Credit then acc.receivables + t.totalAmount else acc.receivables)
    else
      acc.(expenses := acc.expenses + t.totalAmount,
           payables := if t.paymentMethod == Credit then acc.payables + t.totalAmount else acc.payables)
  }

  /** `transactions.reduce(Step, acc)`, left to right. */
  function Fold(acc: FinancialSummary, ts: seq<Transaction>): FinancialSummary
    decreases |ts|
  {
    if ts == [] then acc else Fold(Step(acc, ts[0]), ts[1..])
  }

  function Summarize(ts: seq<Transaction>): FinancialSummary
  {
    Fold(ZERO_SUMMARY, ts)
  }

  /** Sum of `totalAmount` over the transactions of one kind, or over those
      of them paid by credit. */
  function AmountSum(ts: seq<Transaction>, kind: TransactionType, creditOnly: bool): int
  {
    if ts == [] then 0
    else (if ts[0].kind == kind && (!creditOnly || ts[0].paymentMethod == Credit) then ts[0].totalAmount else 0)
         + AmountSum(ts[1..], kind, creditOnly)
  }

  /** The summary the ledger should produce, written as four independent sums. */
  function Totals(ts: seq<Transaction>): FinancialSummary
  {
    FinancialSummary(AmountSum(ts, Sale, false), AmountSum(ts, Purchase, false),
                     AmountSum(ts, Sale, true), AmountSum(ts, Purchase, true))
  }

  function Plus(a: FinancialSummary, b: FinancialSummary): FinancialSummary
  {
    FinancialSummary(a.revenue + b.revenue, a.expenses + b.expenses,
                     a.receivables + b.receivables, a.payables + b.payables)
  }

  lemma {:induction false} FoldAddsTotals(acc: FinancialSummary, ts: seq<Transaction>)
    ensures Fold(acc, ts) == Plus(acc, Totals(ts))
    decreases |ts|
  {
    if ts != [] {
      FoldAddsTotals(Step(acc, ts[0]), ts[1..]);
    }
  }

  /** The fold computes the four sums: revenue is the sales total,
      receivables the credit sales, expenses and payables the same over
      every other transaction; an empty ledger gives zeros. */
  lemma SummaryIsTotals(ts: seq<Transaction>)
    ensures Summarize(ts) == Totals(ts)
    ensures ts == [] ==> Summarize(ts) == ZERO_SUMMARY
  {
    FoldAddsTotals(ZERO_SUMMARY, ts);
  }

  /** Prepending a transaction adds exactly its own contribution. */
  lemma SummaryPrepend(t: Transaction, ts: seq<Transaction>)
    ensures Summarize([t] + ts) == Plus(Step(ZERO_SUMMARY, t), Summarize(ts))
  {
    SummaryIsTotals([t] + ts);
    SummaryIsTotals(ts);
    assert ([t] + ts)[1..] == ts;
  }

  /** A committed sale adds its amount to revenue (and to receivables when
      by credit); a committed purchase adds it to expenses (and payables). */
  lemma CommitUpdatesSummary(ps: seq<Product>, ts: seq<Transaction>, tx: Transaction)
    requires Commit(ps, ts, tx).Committed?
    ensures Summarize(Commit(ps, ts, tx).transactions) == Plus(Step(ZERO_SUMMARY, tx), Summarize(ts))
  {
    SummaryPrepend(tx, ts);
  }

  // ---------------------------------------------------------------------
  // The store

  /** What `createTransaction` returns (`true`) or throws. */
  datatype Outcome = Ok | InsufficientStock(message: string)

  /** The two persisted collections; None stands for "nothing stored under
      this key yet". */
  class StorageService {
    var products: Option<seq<Product>>
    var transactions: Option<seq<Transaction>>

    /** A store holding whatever the browser had persisted. */
    constructor (storedProducts: Option<seq<Product>>, storedTransactions: Option<seq<Transaction>>)
      ensures products == storedProducts && transactions == storedTransactions
      ensures storedProducts.None? ==> Valid()
    {
      products := storedProducts;
      transactions := storedTransactions;
      InitialProductsUnique();
    }

    /** The product list every read returns. */
    function ProductList(): seq<Product>
      reads this
    {
      products.GetOr(INITIAL_PRODUCTS)
    }

    /** The ledger every read returns, newest first. */
    function Ledger(): seq<Transaction>
      reads this
    {
      transactions.GetOr([])
    }

    /** The store's invariant: product ids are unique. */
    ghost predicate Valid()
      reads this
    {
      UniqueIds(ProductList())
    }

    /** `getProducts`: the first read stores the seed and returns it; later
        reads return what is stored and write nothing, so two reads with no
        write between them agree. */
    method GetProducts() returns (ps: seq<Product>)
      modifies this
      ensures ps == old(ProductList()) && products == Some(ps)
      ensures old(products).None? ==> ps == INITIAL_PRODUCTS
      ensures old(products).Some? ==> products == old(products)
      ensures transactions == old(transactions)
    {
      if products.None? {
        products := Some(INITIAL_PRODUCTS);
      }
      ps := products.value;
    }

    /** `getTransactions`: the stored ledger, or the empty one; never writes. */
    method GetTransactions() returns (ts: seq<Transaction>)
      ensures ts == transactions.GetOr([])
      ensures transactions.None? ==> ts == []
    {
      ts := if transactions.Some? then transactions.value else [];
    }

    /** `saveProduct`: read the list (seeding it if needed), upsert by id,
        write it back. */
    method SaveProduct(product: Product)
      modifies this
      ensures products == Some(Upsert(old(ProductList()), product))
      ensures transactions == old(transactions)
      ensures old(Valid()) ==> Valid()
    {
      var ps := GetProducts();
      var index := FindProductIndex(ps, product.id);
      if index.Some? {
        ps := ps[index.value := product];
      } else {
        ps := ps + [product];
      }
      products := Some(ps);
      if UniqueIds(old(ProductList())) {
        UpsertLookup(old(ProductList()), product, product.id);
      }
    }

    /** `createTransaction`: a rejected sale writes nothing but the seed
        that reading the products may store; both collections are written
        only after the check has passed. */
    method CreateTransaction(tx: Transaction) returns (r: Outcome)
      modifies this
      ensures match Commit(old(ProductList()), old(Ledger()), tx)
        case Committed(ps, ts) =>
          r == Ok && products == Some(ps) && transactions == Some(ts)
        case Rejected(name) =>
          r == InsufficientStock(STOCK_ERROR + name)
          && products == Some(old(ProductList())) && transactions == old(transactions)
      ensures old(Valid()) ==> Valid()
      ensures old(Valid()) && r == Ok && tx.kind == Sale ==>
                forall k :: 0 <= k < |ProductList()| && old(ProductList())[k].stock >= 0 ==> ProductList()[k].stock >= 0
    {
      var ts := GetTransactions();
      var ps := GetProducts();
      if tx.kind == Sale {
        var shortfall := ValidateSale(ps, tx.items);
        if shortfall.Some? {
          r := InsufficientStock(STOCK_ERROR + shortfall.value);
          return;
        }
      }
      products := Some(ApplyStock(ps, tx));
      transactions := Some([tx] + ts);
      r := Ok;
      if UniqueIds(ps) {
        CommitKeepsUniqueIds(ps, ts, tx);
        if tx.kind == Sale {
          SaleKeepsStockNonNegative(ps, ts, tx);
        }
      }
    }

    /** `getFinancialSummary`: the four sums over the current ledger. */
    method GetFinancialSummary() returns (s: FinancialSummary)
      ensures s == Totals(Ledger())
      ensures transactions.None? ==> s == ZERO_SUMMARY
    {
      var ts := GetTransactions();
      s := Summarize(ts);
      SummaryIsTotals(ts);
    }
  }
}
