# Inventory and bookkeeping ledger, modelled in Dafny

The system is a small point-of-sale and purchasing application for a shop.
Its core is a ledger. Every sale and every purchase order becomes a
transaction, and committing it does four things:

- a sale is checked item by item against the stock, all or nothing;
- every product named by the transaction has its stock lowered (sale) or
  raised (purchase) by the quantity of the first item naming it;
- the transaction goes to the front of the newest-first ledger;
- the financial summary (revenue, expenses, receivables, payables) is a
  fold over that ledger.

Two pages build transactions. The sales page keeps a cart: one line per
product, capped at the product's stock, priced at the selling price. The
purchasing page keeps a purchase order: priced at cost, no cap, with
editable quantities and a list of reorder suggestions.

The model has six modules:

- `Types` (types.dfy): the record shapes and the first-match lookups
  (`find`, `findIndex`).
- `Storage` (storage.dfy): the seed catalogue, the upsert, the stock
  check, the stock update, the commit as a pure function `Commit`, and the
  summary fold.
  - It also holds the class `StorageService`. Its two fields are the
    persisted collections, `None` meaning that nothing is stored under
    that key yet.
  - Its methods (`GetProducts`, `SaveProduct`, `GetTransactions`,
    `CreateTransaction`, `GetFinancialSummary`) are proved against the
    pure functions.
- `Cart` (cart.dfy): the line operations both pages share (bump a line,
  drop a product's lines, add up the totals) and the cart invariants. The
  invariants are one line per product, and every line's total being its
  quantity times its unit price.
- `Sales` (sales.dfy): `addToCart`, `removeFromCart`, the checkout
  transaction, and the proof that a cart built on the page always passes
  the ledger's stock check.
- `Purchasing` (purchasing.dfy): `addToPO`, `updateQuantity`, line
  removal, `reorderSuggestions`, and the purchase-order transaction.
- `Scenarios` (scenarios.dfy): worked examples on the seed catalogue.

Money and quantities are integers. The transaction field `type` is named
`kind`, because `type` is a Dafny keyword.

## Model

| member | source | states |
|---|---|---|
| Types.FindProductIndex | services/storage.ts:33 | the first position whose product has the id; None exactly when no product has it |
| Types.FindProduct | services/storage.ts:58 | the product at the first position holding the id; None exactly when no product has it |
| Types.FindItemIndex | services/storage.ts:67 | the first item position naming the product; None exactly when no item names it |
| Types.FindItem | services/storage.ts:67 | the item at the first position naming the product; None exactly when no item names it |
| Types.FindOwnId | services/storage.ts:58 | with unique ids, looking a product up by its own id finds that very product at its position |
| Types.FindItemIndexIs | services/storage.ts:67 | a position that names the product, with no earlier one that does, is what the search returns |
| Types.FindItemInPrefix | services/storage.ts:67 | a match found in a prefix stays the match whatever is appended after it |
| Storage.InitialProductsUnique | services/storage.ts:4-9 | the seed holds four products with distinct ids |
| Storage.Upsert | services/storage.ts:31-40 | the saved product is in the result; the length stays or grows by one |
| Storage.UpsertReplacesFirst | services/storage.ts:33-35 | when the id exists, the first entry with it is overwritten in place; length and every other entry unchanged |
| Storage.UpsertAppends | services/storage.ts:36-37 | when the id is new, the product is appended after the unchanged old list |
| Storage.UpsertLookup | services/storage.ts:31-40 | after the upsert the id finds the saved product, every other id finds what it found before, and ids stay unique |
| Storage.InStock | services/storage.ts:58-59 | the per-item test: the first product with the item's id exists and holds at least the item's quantity |
| Storage.InStockMeans | services/storage.ts:58-59 | the test in positional terms: some product holds the id, no earlier one does, and its stock covers the quantity; an item for a missing product fails |
| Storage.SaleAllowed | services/storage.ts:56-62 | every item of the sale passes the per-item test |
| Storage.FirstShortfall | services/storage.ts:56-62 | None exactly when every item passes the stock check; otherwise the first failing item |
| Storage.ValidateSale | services/storage.ts:57-62 | the loop returns nothing exactly when every item's product exists with enough stock, otherwise the name of the first failing item |
| Storage.Adjusted | services/storage.ts:67-76 | the `map` callback: only the stock changes; an unnamed product is returned as it was; otherwise the stock moves by the first matching item's quantity, down for a sale, up for a purchase |
| Storage.ApplyStock | services/storage.ts:66-77 | same length and order; each product is adjusted by its first matching item; nothing but `stock` changes |
| Storage.FirstItemApplied | services/storage.ts:67-74 | the first item naming a product sets its new stock: minus the quantity for a sale, plus for a purchase |
| Storage.UnnamedProductUnchanged | services/storage.ts:75-76 | a product that no item names is returned exactly as it was |
| Storage.ApplyStockKeepsUniqueIds | services/storage.ts:66-77 | the stock update keeps product ids unique |
| Storage.FindItemSkips | services/storage.ts:67 | inserting an item for another id does not change what the search finds |
| Storage.FindItemRepeated | services/storage.ts:67 | an item repeating an id matched earlier is never the match |
| Storage.UnknownItemIgnored | services/storage.ts:66-77 | an item whose id matches no product has no effect on the stock update |
| Storage.RepeatedItemIgnored | services/storage.ts:67 | a later item for an id that already occurs has no effect: only the first item per id is applied |
| Storage.Commit | services/storage.ts:49-86 | rejected exactly when it is a sale and some item fails the check, naming the first failing item; otherwise the ledger is the transaction followed by the old ledger, and the products are the updated stock |
| Storage.SaleKeepsStockNonNegative | services/storage.ts:56-77 | no oversell: with unique ids, a committed sale leaves every named product, and every product whose stock was non-negative, at stock ≥ 0 |
| Storage.CommitKeepsUniqueIds | services/storage.ts:66-79 | a commit keeps product ids unique |
| Storage.Step | services/storage.ts:91-103 | the reducer body: a sale adds to revenue and, on credit, to receivables; any other transaction adds to expenses and, on credit, to payables |
| Storage.Fold | services/storage.ts:91-104 | the left-to-right `reduce` over the ledger; its sums are stated by Storage.FoldAddsTotals |
| Storage.Summarize | services/storage.ts:88-105 | the `reduce` from the all-zero accumulator; its sums are stated by Storage.SummaryIsTotals |
| Storage.FoldAddsTotals | services/storage.ts:91-104 | folding from any accumulator adds the four independent sums to it |
| Storage.SummaryIsTotals | services/storage.ts:88-105 | the summary is revenue = sales total, receivables = credit sales, expenses and payables the same over purchases; an empty ledger gives zeros |
| Storage.SummaryPrepend | services/storage.ts:82-105 | prepending a transaction adds exactly its own contribution to each field |
| Storage.CommitUpdatesSummary | services/storage.ts:82-105 | after a commit the summary is the old one plus the new transaction's contribution |
| Storage.StorageService.constructor | services/storage.ts:13-16 | the store starts with whatever is persisted under the two keys; a store with no products stored satisfies the unique-id invariant |
| Storage.StorageService.GetProducts | services/storage.ts:22-29 | the first read stores the seed and returns it; later reads return what is stored and write nothing; the ledger is untouched |
| Storage.StorageService.GetTransactions | services/storage.ts:42-46 | the stored ledger, or the empty one when nothing is stored; never writes |
| Storage.StorageService.SaveProduct | services/storage.ts:31-40 | the stored products become the upsert of the current list; the ledger is untouched; unique ids are kept |
| Storage.StorageService.CreateTransaction | services/storage.ts:49-86 | on commit both collections are the committed state and the result is success; on rejection the error names the product, the product list is unchanged and the ledger is not written; unique ids are kept; a successful sale leaves no non-negative stock below zero |
| Storage.StorageService.GetFinancialSummary | services/storage.ts:88-105 | the summary equals the four independent sums over the current ledger, and zeros when nothing is stored |
| Cart.Incremented | pages/Sales.tsx:31-35 | the spread update: same product, name and unit price, one more unit, total recomputed as quantity times unit price |
| Cart.IncrementedTotal | pages/Sales.tsx:31-35 | one more unit on a priced line costs exactly one more unit price |
| Cart.Bump | pages/Sales.tsx:31-35 | same length; every line of the product gains a unit with its total recomputed; every other line unchanged |
| Cart.BumpUnique | pages/Sales.tsx:31-35 | with one line per product, bumping changes only that product's line |
| Cart.BumpKeepsWellFormed | pages/Sales.tsx:31-35 | bumping keeps one line per product and every line priced |
| Cart.Without | pages/Sales.tsx:47-49 | no line of the product is left, and the cart does not grow |
| Cart.WithoutMembers | pages/Sales.tsx:47-49 | exactly the lines of other products remain; a cart without the product comes back unchanged |
| Cart.WithoutConcat | pages/Sales.tsx:47-49 | the filter distributes over concatenation, so the remaining lines keep their order |
| Cart.UniqueCons | pages/Sales.tsx:37-43 | a line put in front of a cart that has no line of its product keeps one line per product |
| Cart.WithoutKeepsAbsent | pages/Sales.tsx:47-49 | the filter brings in no product the cart did not have |
| Cart.WithoutKeepsUniqueLines | pages/Sales.tsx:47-49 | dropping a product's lines keeps one line per product |
| Cart.WithoutKeepsWellFormed | pages/Purchasing.tsx:163 | the purchase-order line removal keeps one line per product and every line priced |
| Cart.Total | pages/Sales.tsx:51 | `calculateTotal`, the left-to-right sum of the line totals (also the reduce at pages/Purchasing.tsx:55); its properties are stated by Cart.TotalSplit, Cart.TotalAppend, Cart.TotalUpdate and Cart.TotalWithout |
| Cart.TotalSplit | pages/Sales.tsx:51 | every line is counted exactly once in the total, and an empty cart totals 0 |
| Cart.TotalAppend | pages/Sales.tsx:51 | the total of two carts put together is the sum of their totals |
| Cart.TotalUpdate | pages/Sales.tsx:51 | replacing one line changes the total by that line's change |
| Cart.TotalWithout | pages/Sales.tsx:47-51 | with one line per product, removing a product takes exactly its line's total off |
| Sales.NewLine | pages/Sales.tsx:37-43 | the appended line: the product's id and a snapshot of its name, one unit at the selling price, and a priced total |
| Sales.AddToCart | pages/Sales.tsx:24-45 | a product at or below zero stock, or whose line already holds the whole stock, leaves the cart unchanged; otherwise at most one line is added |
| Sales.AddToCartAppends | pages/Sales.tsx:37-43 | a product with stock and no line gets a line at the end: one unit at the selling price, its name copied |
| Sales.AddToCartIncrements | pages/Sales.tsx:28-35 | below the stock limit, exactly the product's line gains one unit with its total recomputed |
| Sales.AddToCartBumps | pages/Sales.tsx:28-35 | when the product's line is below its stock, the click bumps that line |
| Sales.AddToCartKeepsWellFormed | pages/Sales.tsx:24-45 | adding keeps one line per product and every line priced |
| Sales.AddToCartWithinStock | pages/Sales.tsx:25-30 | a click never takes the product's line above the stock: the line holds at most the stock or is left as it was |
| Sales.AddToCartTotal | pages/Sales.tsx:24-51 | a click that changes the cart raises the total by the unit price of the product's line |
| Sales.RemoveFromCartTotal | pages/Sales.tsx:47-51 | removing keeps the cart well formed, keeps exactly the other products' lines, and lowers the total by the removed line's total |
| Sales.Checkout | pages/Sales.tsx:53-68 | nothing when the cart or customer is empty; otherwise a completed sale of the cart to the customer for the cart's total, numbered INV- and the stamp |
| Sales.AddKeepsSaleAllowed | pages/Sales.tsx:24-45 | a click on a catalogue product keeps the cart within the stock the ledger checks |
| Sales.RemoveKeepsSaleAllowed | pages/Sales.tsx:47-49 | removing lines keeps the cart within the checked stock |
| Sales.PerformKeepsSaleAllowed | pages/Sales.tsx:24-49 | either action keeps the cart well formed and within stock |
| Sales.SessionPassesStockCheck | pages/Sales.tsx:24-49 | any sequence of clicks and removals from a good cart leaves a well-formed cart that passes the ledger's stock check |
| Sales.CheckoutCommits | pages/Sales.tsx:53-70 | a cart built on the page against the shown catalogue always commits: the sale heads the ledger, revenue rises by the cart's total, no non-negative stock goes below zero |
| Purchasing.NewLine | pages/Purchasing.tsx:26-32 | the appended line: the product's id and name, one unit at cost, and a priced total |
| Purchasing.AddToPO | pages/Purchasing.tsx:16-34 | a click always changes the order, by at most one new line |
| Purchasing.AddToPOIncrements | pages/Purchasing.tsx:18-24 | a product already on the order gains one unit on its line with its total recomputed, with no stock cap; other lines unchanged |
| Purchasing.AddToPOAppends | pages/Purchasing.tsx:26-32 | a new product gets a line at the end: one unit at cost |
| Purchasing.AddToPOKeepsWellFormed | pages/Purchasing.tsx:16-34 | adding keeps one line per product and every line priced |
| Purchasing.AddToPOTotal | pages/Purchasing.tsx:16-34 | every click raises the order's total by the unit price of the product's line |
| Purchasing.WithQuantity | pages/Purchasing.tsx:38-42 | the spread update: same product, name and unit price, the given quantity, total recomputed as quantity times unit price |
| Purchasing.SetQuantity | pages/Purchasing.tsx:38-42 | every line of the product gets the quantity and its total recomputed; other lines unchanged |
| Purchasing.UpdateQuantity | pages/Purchasing.tsx:36-43 | a quantity below 1 leaves the order unchanged; otherwise the product's lines get the quantity and its total, and every other line stays |
| Purchasing.UpdateQuantityKeepsWellFormed | pages/Purchasing.tsx:36-43 | setting a quantity keeps one line per product and every line priced, and changes the total by that line's change |
| Purchasing.ReorderSuggestions | pages/Purchasing.tsx:77 | exactly the products at or below their reorder point |
| Purchasing.ReorderSuggestionsConcat | pages/Purchasing.tsx:77 | the suggestions keep the catalogue's order: the filter distributes over concatenation |
| Purchasing.CreatePO | pages/Purchasing.tsx:45-60 | nothing when the order or supplier is empty; otherwise a completed purchase on credit from the supplier for the sum of the line totals, numbered PO- and the stamp |
| Purchasing.PurchaseOrderCommits | pages/Purchasing.tsx:45-62 | a purchase order always commits: it heads the ledger, expenses and payables rise by its total, revenue and receivables stay |
| Purchasing.PurchaseOrderRestocks | pages/Purchasing.tsx:45-62 | with one line per product, each listed product's stock rises by its line's quantity |
| Scenarios.MilkOnlyAdjusted | services/storage.ts:66-77 | a one-item order for the seed's product 4 changes only that product's stock, by the item's quantity |
| Scenarios.SaleWithinStock | services/storage.ts:49-86 | selling 3 of the 5 units of product 4 commits on any ledger: the stock drops to 2, the other seed products stay, revenue rises by 3 × 18000 |
| Scenarios.MilkSaleRejected | services/storage.ts:56-62 | on a catalogue with unique ids where product 4 holds fewer units than ordered, the sale is rejected naming the product |
| Scenarios.SaleBeyondStock | services/storage.ts:56-62 | selling 10 of the 5 seed units is rejected naming the product |
| Scenarios.PurchaseOnCredit | services/storage.ts:66-105 | buying 20 units on credit raises the stock to 25, and expenses and payables by the order's amount |
| Scenarios.FirstSaleCommits | services/storage.ts:49-86 | a first sale of 4 seed units commits and leaves 1 unit |
| Scenarios.SecondSaleRejected | services/storage.ts:56-62 | a second sale of 4 units after that is rejected |
| Scenarios.TwoSalesInARow | services/storage.ts:22-105 | through a fresh store: the summary starts at zero, the first sale succeeds, the second is refused with the stock error, and the product list keeps the 1 unit |

## Left out

- Persistence: `localStorage`, the JSON encoding and decoding, and parse failures of stored data. The store keeps the two collections as values; `None` stands for "nothing stored". A stored empty string, which the source also treats as "nothing stored", is not modelled.
- The simulated 300 ms delay and the `async`/`await` sequencing of `createTransaction`. A commit runs as one step.
- Aliasing of the module constants: the source returns, and then mutates, the seed array and the empty ledger array. The model has value semantics.
- Randomness and the clock: `crypto.randomUUID`, the ISO date and the `Date.now()` suffix of the reference number. They are parameters (`id`, `date`, `stamp`) of `Sales.Checkout` and `Purchasing.CreatePO`.
- Floating-point money, and the `NaN` that `parseInt` can feed into `updateQuantity`. Money and quantities are integers here.
- Storage.StorageService.CreateTransaction: on a rejected sale, the seed catalogue that reading the products stores when nothing was stored yet is still written. So the contract says the product list is unchanged, and the stored field may go from nothing to the seed.
- Recomputing totals: `Storage.Commit` stores the caller's `total` and `totalAmount` as given and does not recompute them, as the source does. The pages' transactions satisfy them by construction (`Sales.Checkout`, `Purchasing.CreatePO`).
- The thrown error is modelled as the `Storage.Outcome` value `InsufficientStock` carrying the message; the `alert`s and console output of the pages are not.
- services/gemini.ts, the advisor that calls an external generative-AI service, is not part of this model.
- pages/Dashboard.tsx, pages/Audit.tsx, pages/Inventory.tsx, components/Layout.tsx and App.tsx are rendering and routing and are not part of this model.
- The `profit` and `cashBalance` fields of the summary type are computed nowhere in the source and are not modelled.
- React state wiring (`useState`, `useEffect`). The pages' cart updates are modelled as functions from the old cart to the new one.
