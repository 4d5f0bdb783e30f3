/** Worked examples of the ledger on the seed catalogue: the low-stock milk
    product ("4", stock 5, price 18000) sold within and beyond its stock,
    restocked on credit, and sold twice in a row through the store. */
module Scenarios {
  import opened Types
  import opened Storage

  const MILK := INITIAL_PRODUCTS[3]

  /** A one-line transaction of `qty` units of milk at `unitPrice`. */
  function MilkOrder(kind: TransactionType, qty: int, unitPrice: int, pm: PaymentMethod): Transaction
  {
    Transaction("tx", "2024-01-01", kind, [TransactionItem(MILK.id, MILK.name, qty, unitPrice, qty * unitPrice)],
                qty * unitPrice, pm, "Budi", Completed, "REF")
  }

  /** Selling 3 of the 5 units commits on any ledger: milk drops to 2, the
      other seed products stay, and revenue rises by 3 units' price. */
  lemma SaleWithinStock(ts: seq<Transaction>, pm: PaymentMethod)
    ensures var c := Commit(INITIAL_PRODUCTS, ts, MilkOrder(Sale, 3, MILK.price, pm));
            c.Committed? && c.products[3].stock == 2
            && (forall k :: 0 <= k < 3 ==> c.products[k] == INITIAL_PRODUCTS[k])
            && Summarize(c.transactions).revenue == Summarize(ts).revenue + 3 * 18000
            && Summarize(c.transactions).expenses == Summarize(ts).expenses
  {
    var tx := MilkOrder(Sale, 3, MILK.price, pm);
    assert InStock(INITIAL_PRODUCTS, tx.items[0]);
    assert Commit(INITIAL_PRODUCTS, ts, tx).products == ApplyStock(INITIAL_PRODUCTS, tx);
    MilkOnlyAdjusted(tx);
    CommitUpdatesSummary(INITIAL_PRODUCTS, ts, tx);
    assert Step(ZERO_SUMMARY, tx).revenue == 3 * 18000;
  }

  /** Only the milk product is named by a milk order. */
  lemma MilkOnlyAdjusted(tx: Transaction)
    requires |tx.items| == 1 && tx.items[0].productId == MILK.id
    ensures forall k :: 0 <= k < 3 ==> ApplyStock(INITIAL_PRODUCTS, tx)[k] == INITIAL_PRODUCTS[k]
    ensures ApplyStock(INITIAL_PRODUCTS, tx)[3].stock ==
              if tx.kind == Sale then 5 - tx.items[0].quantity else 5 + tx.items[0].quantity
  {
    forall k | 0 <= k < 3 ensures ApplyStock(INITIAL_PRODUCTS, tx)[k] == INITIAL_PRODUCTS[k] {
      UnnamedProductUnchanged(INITIAL_PRODUCTS, tx, k);
    }
    FirstItemApplied(INITIAL_PRODUCTS, tx, 3, 0);
  }

  /** On any catalogue with unique ids whose milk entry holds fewer units
      than ordered, the milk sale is rejected, naming the product. */
  lemma MilkSaleRejected(ps: seq<Product>, ts: seq<Transaction>, qty: int, pm: PaymentMethod, k: nat)
    requires UniqueIds(ps) && k < |ps| && ps[k].id == MILK.id && ps[k].stock < qty
    ensures Commit(ps, ts, MilkOrder(Sale, qty, MILK.price, pm)) == Rejected("Susu UHT Full Cream")
  {
    var tx := MilkOrder(Sale, qty, MILK.price, pm);
    FindOwnId(ps, k);
    assert !InStock(ps, tx.items[0]);
    assert FirstShortfall(ps, tx.items) == Some(0);
  }

  /** Selling 10 of the 5 units is rejected, naming the product. */
  lemma SaleBeyondStock(ts: seq<Transaction>, pm: PaymentMethod)
    ensures Commit(INITIAL_PRODUCTS, ts, MilkOrder(Sale, 10, MILK.price, pm)) == Rejected("Susu UHT Full Cream")
  {
    InitialProductsUnique();
    MilkSaleRejected(INITIAL_PRODUCTS, ts, 10, pm, 3);
  }

  /** Buying 20 units on credit commits: milk rises to 25, and expenses and
      payables both rise by the order's amount. */
  lemma PurchaseOnCredit(ts: seq<Transaction>)
    ensures var tx := MilkOrder(Purchase, 20, MILK.cost, Credit);
            var c := Commit(INITIAL_PRODUCTS, ts, tx);
            c.Committed? && c.products[3].stock == 25
            && Summarize(c.transactions).expenses == Summarize(ts).expenses + tx.totalAmount
            && Summarize(c.transactions).payables == Summarize(ts).payables + tx.totalAmount
            && Summarize(c.transactions).revenue == Summarize(ts).revenue
  {
    var tx := MilkOrder(Purchase, 20, MILK.cost, Credit);
    MilkOnlyAdjusted(tx);
    CommitUpdatesSummary(INITIAL_PRODUCTS, ts, tx);
  }

  /** A first sale of 4 units against the seed commits and leaves 1 unit. */
  lemma FirstSaleCommits(pm: PaymentMethod)
    ensures var tx := MilkOrder(Sale, 4, MILK.price, pm);
            Commit(INITIAL_PRODUCTS, [], tx) == Committed(ApplyStock(INITIAL_PRODUCTS, tx), [tx])
            && ApplyStock(INITIAL_PRODUCTS, tx)[3].stock == 1
  {
    var tx := MilkOrder(Sale, 4, MILK.price, pm);
    assert InStock(INITIAL_PRODUCTS, tx.items[0]);
    assert SaleAllowed(INITIAL_PRODUCTS, tx.items);
    MilkOnlyAdjusted(tx);
  }

  /** A second sale of 4 units after the first is rejected. */
  lemma SecondSaleRejected(pm: PaymentMethod)
    ensures var tx := MilkOrder(Sale, 4, MILK.price, pm);
            Commit(ApplyStock(INITIAL_PRODUCTS, tx), [tx], tx) == Rejected("Susu UHT Full Cream")
  {
    var tx := MilkOrder(Sale, 4, MILK.price, pm);
    MilkOnlyAdjusted(tx);
    InitialProductsUnique();
    ApplyStockKeepsUniqueIds(INITIAL_PRODUCTS, tx);
    MilkSaleRejected(ApplyStock(INITIAL_PRODUCTS, tx), [tx], 4, pm, 3);
  }

  /** The same two sales through a fresh store. Nothing was stored, so the
      summary before them is all zeros; the first sale succeeds, the second
      is refused with the stock error, and the product list the store then
      returns still holds the 1 unit the first sale left. */
  method TwoSalesInARow() returns (before: FinancialSummary, first: Outcome, second: Outcome, stockAfter: int)
    ensures before == ZERO_SUMMARY
    ensures first == Ok
    ensures second == InsufficientStock(STOCK_ERROR + "Susu UHT Full Cream")
    ensures stockAfter == 1
  {
    var store := new StorageService(None, None);
    before := store.GetFinancialSummary();
    var tx := MilkOrder(Sale, 4, MILK.price, Cash);
    FirstSaleCommits(Cash);
    SecondSaleRejected(Cash);
    first := store.CreateTransaction(tx);
    assert store.ProductList() == ApplyStock(INITIAL_PRODUCTS, tx) && store.Ledger() == [tx];
    second := store.CreateTransaction(tx);
    var ps := store.GetProducts();
    stockAfter := ps[3].stock;
  }
}
