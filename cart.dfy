/** The cart-line operations that the point-of-sale page (pages/Sales.tsx)
    and the purchase-order page (pages/Purchasing.tsx) both perform on
    their `TransactionItem[]` state: bump a product's line by one unit,
    drop a product's lines, and add up the line totals. */
module Cart {
  import opened Types

  /** At most one line per product. */
  predicate UniqueLines(cart: seq<TransactionItem>)
  {
    forall i, j :: 0 <= i < j < |cart| ==> cart[i].productId != cart[j].productId
  }

  /** Every line's total is its quantity at its unit price. */
  predicate LinesPriced(cart: seq<TransactionItem>)
  {
    forall i :: 0 <= i < |cart| ==> cart[i].total == cart[i].quantity * cart[i].priceAtMoment
  }

  /** The two facts every cart the pages build keeps. */
  predicate WellFormed(cart: seq<TransactionItem>)
  {
    UniqueLines(cart) && LinesPriced(cart)
  }

  /** A line with one more unit, its total recomputed from its own unit price. */
  function Incremented(line: TransactionItem): (r: TransactionItem)
    ensures r.productId == line.productId && r.productName == line.productName
    ensures r.priceAtMoment == line.priceAtMoment && r.quantity == line.quantity + 1
    ensures r.total == r.quantity * r.priceAtMoment
  {
    line.(quantity := line.quantity + 1, total := (line.quantity + 1) * line.priceAtMoment)
  }

  /** A priced line with one more unit costs one more unit price. */
  lemma IncrementedTotal(line: TransactionItem)
    requires line.total == line.quantity * line.priceAtMoment
    ensures Incremented(line).total == line.total + line.priceAtMoment
  {
    calc {
      Incremented(line).total;
      (line.quantity + 1) * line.priceAtMoment;
      line.quantity * line.priceAtMoment + line.priceAtMoment;
    }
  }

  /** `prev.map(item => item.productId === id ? <one more unit> : item)`:
      every line of the product gains a unit, every other line stays. */
  function Bump(cart: seq<TransactionItem>, id: string): (r: seq<TransactionItem>)
    ensures |r| == |cart|
    ensures forall k :: 0 <= k < |cart| ==>
              r[k] == if cart[k].productId == id then Incremented(cart[k]) else cart[k]
  {
    if cart == [] then []
    else [if cart[0].productId == id then Incremented(cart[0]) else cart[0]] + Bump(cart[1..], id)
  }

  /** On a cart with one line per product, bumping changes that line alone. */
  lemma BumpUnique(cart: seq<TransactionItem>, k: nat)
    requires UniqueLines(cart) && k < |cart|
    ensures Bump(cart, cart[k].productId) == cart[k := Incremented(cart[k])]
  {
  }

  /** Bumping keeps one line per product and every total priced. */
  lemma BumpKeepsWellFormed(cart: seq<TransactionItem>, id: string)
    requires WellFormed(cart)
    ensures WellFormed(Bump(cart, id))
  {
    var r := Bump(cart, id);
    assert forall k :: 0 <= k < |cart| ==> r[k].productId == cart[k].productId;
  }

  /** `prev.filter(item => item.productId !== id)`: no line of the product
      is left. */
  function Without(cart: seq<TransactionItem>, id: string): (r: seq<TransactionItem>)
    ensures |r| <= |cart|
    ensures forall k :: 0 <= k < |r| ==> r[k].productId != id
  {
    if cart == [] then []
    else if cart[0].productId == id then Without(cart[1..], id)
    else [cart[0]] + Without(cart[1..], id)
  }

  /** Exactly the lines of other products remain, and a cart without the
      product comes back unchanged. */
  lemma {:induction false} WithoutMembers(cart: seq<TransactionItem>, id: string)
    ensures forall x :: x in Without(cart, id) <==> x in cart && x.productId != id
    ensures (forall k :: 0 <= k < |cart| ==> cart[k].productId != id) ==> Without(cart, id) == cart
  {
    if cart != [] {
      WithoutMembers(cart[1..], id);
      assert cart == [cart[0]] + cart[1..];
    }
  }

  /** Filtering keeps the remaining lines in their order: it distributes
      over concatenation. */
  lemma {:induction false} WithoutConcat(a: seq<TransactionItem>, b: seq<TransactionItem>, id: string)
    ensures Without(a + b, id) == Without(a, id) + Without(b, id)
  {
    if a == [] {
      assert a + b == b;
    } else {
      assert (a + b)[0] == a[0];
      assert (a + b)[1..] == a[1..] + b;
      WithoutConcat(a[1..], b, id);
    }
  }

  /** A line in front of a cart with one line per product keeps it so when
      its product has no line there yet. */
  lemma UniqueCons(line: TransactionItem, cart: seq<TransactionItem>)
    requires UniqueLines(cart)
    requires forall k :: 0 <= k < |cart| ==> cart[k].productId != line.productId
    ensures UniqueLines([line] + cart)
  {
    var r := [line] + cart;
    forall i, j | 0 <= i < j < |r| ensures r[i].productId != r[j].productId {
      assert r[j] == cart[j - 1];
      if i > 0 {
        assert r[i] == cart[i - 1];
      }
    }
  }

  /** Filtering brings in no product the cart did not already have. */
  lemma {:induction false} WithoutKeepsAbsent(cart: seq<TransactionItem>, id: string, other: string)
    requires forall k :: 0 <= k < |cart| ==> cart[k].productId != other
    ensures forall k :: 0 <= k < |Without(cart, id)| ==> Without(cart, id)[k].productId != other
  {
    if cart != [] {
      var rest := cart[1..];
      assert forall k :: 0 <= k < |rest| ==> rest[k] == cart[k + 1];
      WithoutKeepsAbsent(rest, id, other);
      if cart[0].productId != id {
        var r := [cart[0]] + Without(rest, id);
        assert forall k :: 1 <= k < |r| ==> r[k] == Without(rest, id)[k - 1];
      }
    }
  }

  /** Dropping a product's lines keeps one line per product. */
  lemma {:induction false} WithoutKeepsUniqueLines(cart: seq<TransactionItem>, id: string)
    requires UniqueLines(cart)
    ensures UniqueLines(Without(cart, id))
  {
    if cart != [] {
      var rest := cart[1..];
      assert forall i :: 0 <= i < |rest| ==> rest[i] == cart[i + 1];
      assert UniqueLines(rest);
      WithoutKeepsUniqueLines(rest, id);
      if cart[0].productId != id {
        WithoutKeepsAbsent(rest, id, cart[0].productId);
        UniqueCons(cart[0], Without(rest, id));
      }
    }
  }

  /** Dropping a product's lines keeps the cart well formed. */
  lemma WithoutKeepsWellFormed(cart: seq<TransactionItem>, id: string)
    requires WellFormed(cart)
    ensures WellFormed(Without(cart, id))
  {
    WithoutKeepsUniqueLines(cart, id);
    WithoutMembers(cart, id);
    var r := Without(cart, id);
    forall k | 0 <= k < |r| ensures r[k].total == r[k].quantity * r[k].priceAtMoment {
      assert r[k] in r;
      var i :| 0 <= i < |cart| && cart[i] == r[k];
    }
  }

  /** `cart.reduce((sum, item) => sum + item.total, 0)`, left to right. */
  function Total(cart: seq<TransactionItem>): int
  {
    if cart == [] then 0 else Total(cart[..|cart| - 1]) + cart[|cart| - 1].total
  }

  /** Every line is counted exactly once: the total is what comes before a
      line, plus the line, plus what follows it; an empty cart totals 0. */
  lemma TotalSplit(cart: seq<TransactionItem>, k: nat)
    requires k < |cart|
    ensures Total(cart) == Total(cart[..k]) + cart[k].total + Total(cart[k + 1..])
    ensures Total([]) == 0
  {
    assert cart == cart[..k] + [cart[k]] + cart[k + 1..];
    TotalAppend(cart[..k] + [cart[k]], cart[k + 1..]);
    TotalAppend(cart[..k], [cart[k]]);
    assert Total([cart[k]]) == cart[k].total;
  }

  /** The total of two carts put together is the sum of their totals. */
  lemma {:induction false} TotalAppend(a: seq<TransactionItem>, b: seq<TransactionItem>)
    ensures Total(a + b) == Total(a) + Total(b)
    decreases |b|
  {
    if b == [] {
      assert a + b == a;
    } else {
      var b' := b[..|b| - 1];
      assert (a + b)[..|a + b| - 1] == a + b';
      TotalAppend(a, b');
    }
  }

  /** Replacing one line changes the total by exactly that line's change. */
  lemma {:induction false} TotalUpdate(cart: seq<TransactionItem>, k: nat, line: TransactionItem)
    requires k < |cart|
    ensures Total(cart[k := line]) == Total(cart) - cart[k].total + line.total
    decreases |cart|
  {
    var n := |cart|;
    var c := cart[k := line];
    if k == n - 1 {
      assert c[..n - 1] == cart[..n - 1];
    } else {
      assert c[..n - 1] == cart[..n - 1][k := line];
      TotalUpdate(cart[..n - 1], k, line);
    }
  }

  /** Dropping a product's line from a cart with one line per product
      takes exactly that line's total off. */
  lemma {:induction false} TotalWithout(cart: seq<TransactionItem>, id: string)
    requires UniqueLines(cart)
    ensures Total(Without(cart, id)) == Total(cart) - (match FindItem(cart, id) case None => 0 case Some(l) => l.total)
  {
    if cart != [] {
      var rest := cart[1..];
      assert cart == [cart[0]] + rest;
      TotalAppend([cart[0]], rest);
      assert Total([cart[0]]) == cart[0].total;
      assert UniqueLines(rest) by {
        assert forall i :: 0 <= i < |rest| ==> rest[i] == cart[i + 1];
      }
      if cart[0].productId == id {
        assert forall k :: 0 <= k < |rest| ==> rest[k].productId != id by {
          assert forall k :: 0 <= k < |rest| ==> rest[k] == cart[k + 1];
        }
        WithoutMembers(rest, id);
        assert FindItem(cart, id) == Some(cart[0]);
      } else {
        TotalWithout(rest, id);
        TotalAppend([cart[0]], Without(rest, id));
        assert FindItem(cart, id) == FindItem(rest, id);
      }
    }
  }
}
