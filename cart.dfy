/**
 * The cart state engine of the storefront (src/context/CartContext.jsx):
 * the line-item data model, the pure updaters that the cart's state setter
 * applies (`find`, `map`, `filter`, append), the two derived sums, and the
 * properties the engine promises about them.
 *
 * Prices are exact `real`s: the floating-point rounding of the original is
 * not modelled.
 */
module Cart {
  import opened Wrappers

  /** Product ids are compared with strict equality; the catalog uses numbers. */
  type ProductId = int

  datatype Rating = Rating(rate: real, count: int)

  /** A catalog product, copied by value into the cart when it is added. */
  datatype Product = Product(
    id: ProductId,
    name: string,
    price: real,
    description: Option<string>,
    image: Option<string>,
    category: Option<string>,
    rating: Option<Rating>)

  /** A product's fields together with the number of units in the cart. */
  datatype LineItem = LineItem(product: Product, quantity: int)
  {
    function Id(): ProductId { product.id }

    /** price × quantity of this line */
    function LineTotal(): real { product.price * quantity as real }
  }

  // ---------------------------------------------------------------------
  // Cart invariants
  // ---------------------------------------------------------------------

  predicate Contains(items: seq<LineItem>, id: ProductId)
  {
    exists i :: 0 <= i < |items| && items[i].Id() == id
  }

  /** At most one line item per product id. */
  predicate UniqueIds(items: seq<LineItem>)
  {
    forall i, j :: 0 <= i < j < |items| ==> items[i].Id() != items[j].Id()
  }

  /** No line item holds zero or fewer units. */
  predicate PositiveQuantities(items: seq<LineItem>)
  {
    forall i :: 0 <= i < |items| ==> items[i].quantity >= 1
  }

  /** The invariant every reachable cart satisfies. */
  predicate WellFormed(items: seq<LineItem>)
  {
    UniqueIds(items) && PositiveQuantities(items)
  }

  /** Both carts list the same ids at the same positions. */
  predicate SameIds(a: seq<LineItem>, b: seq<LineItem>)
  {
    |a| == |b| && forall i :: 0 <= i < |a| ==> a[i].Id() == b[i].Id()
  }

  // ---------------------------------------------------------------------
  // The updaters
  // ---------------------------------------------------------------------

  /** `items.find(item => item.id === id)`: the first item with the id. */
  function Find(items: seq<LineItem>, id: ProductId): (r: Option<LineItem>)
    ensures r.None? <==> !Contains(items, id)
    ensures r.Some? ==> r.value in items && r.value.Id() == id
    ensures r.Some? ==> exists k :: 0 <= k < |items| && r.value == items[k] && !Contains(items[..k], id)
  {
    if items == [] then None
    else if items[0].Id() == id then
      assert items[0] == items[0] && !Contains(items[..0], id);
      Some(items[0])
    else
      var r := Find(items[1..], id);
      assert Contains(items[1..], id) ==> Contains(items, id) by {
        if Contains(items[1..], id) {
          var i :| 0 <= i < |items[1..]| && items[1..][i].Id() == id;
          assert items[i + 1].Id() == id;
        }
      }
      assert r.Some? ==> exists k :: 0 <= k < |items| && r.value == items[k] && !Contains(items[..k], id) by {
        if r.Some? {
          var k :| 0 <= k < |items[1..]| && r.value == items[1..][k] && !Contains(items[1..][..k], id);
          assert items[..k + 1] == [items[0]] + items[1..][..k];
          assert r.value == items[k + 1] && !Contains(items[..k + 1], id);
        }
      }
      r
  }

  /** The `map` of `addToCart`: every item with the id gains one unit. */
  function IncrementMatching(items: seq<LineItem>, id: ProductId): seq<LineItem>
  {
    seq(|items|, i requires 0 <= i < |items| =>
      if items[i].Id() == id then items[i].(quantity := items[i].quantity + 1) else items[i])
  }

  /** The updater of `addToCart`: bump an existing line, or append a new one. */
  function AddItem(items: seq<LineItem>, product: Product): (r: seq<LineItem>)
    ensures Contains(r, product.id)
    ensures !Contains(items, product.id) ==> r == items + [LineItem(product, 1)]
    ensures Contains(items, product.id) ==> SameIds(r, items)
    ensures forall id :: Contains(r, id) <==> Contains(items, id) || id == product.id
  {
    match Find(items, product.id)
    case Some(_) =>
      var r := IncrementMatching(items, product.id);
      assert forall id :: Contains(r, id) ==> Contains(items, id) by {
        forall id | Contains(r, id) ensures Contains(items, id) {
          var i :| 0 <= i < |r| && r[i].Id() == id;
          assert items[i].Id() == id;
        }
      }
      assert forall id :: Contains(items, id) ==> Contains(r, id) by {
        forall id | Contains(items, id) ensures Contains(r, id) {
          var i :| 0 <= i < |items| && items[i].Id() == id;
          assert r[i].Id() == id;
        }
      }
      r
    case None =>
      var r := items + [LineItem(product, 1)];
      assert r[|items|].Id() == product.id;
      assert forall id :: Contains(r, id) ==> Contains(items, id) || id == product.id by {
        forall id | Contains(r, id) ensures Contains(items, id) || id == product.id {
          var i :| 0 <= i < |r| && r[i].Id() == id;
          if i < |items| { assert items[i].Id() == id; }
        }
      }
      assert forall id :: Contains(items, id) ==> Contains(r, id) by {
        forall id | Contains(items, id) ensures Contains(r, id) {
          var i :| 0 <= i < |items| && items[i].Id() == id;
          assert r[i].Id() == id;
        }
      }
      r
  }

  /** The updater of `removeFromCart`: `filter(item => item.id !== id)`. */
  function RemoveItem(items: seq<LineItem>, id: ProductId): (r: seq<LineItem>)
    ensures |r| <= |items|
  {
    if items == [] then []
    else if items[0].Id() == id then RemoveItem(items[1..], id)
    else [items[0]] + RemoveItem(items[1..], id)
  }

  /** The `map` of `updateQuantity`: every item with the id gets the quantity. */
  function SetQuantity(items: seq<LineItem>, id: ProductId, quantity: int): (r: seq<LineItem>)
    ensures SameIds(r, items)
    ensures !Contains(items, id) ==> r == items
  {
    var r := seq(|items|, i requires 0 <= i < |items| =>
      if items[i].Id() == id then items[i].(quantity := quantity) else items[i]);
    assert !Contains(items, id) ==> r == items by {
      if !Contains(items, id) {
        assert forall i :: 0 <= i < |items| ==> r[i] == items[i];
      }
    }
    r
  }

  // ---------------------------------------------------------------------
  // The derived reads
  // ---------------------------------------------------------------------

  /** Σ price × quantity over the items: the definition the totals must meet. */
  function PriceSum(items: seq<LineItem>): real
  {
    if items == [] then 0.0 else items[0].LineTotal() + PriceSum(items[1..])
  }

  /** Σ quantity over the items: the number of units, not of distinct products. */
  function QuantitySum(items: seq<LineItem>): int
  {
    if items == [] then 0 else items[0].quantity + QuantitySum(items[1..])
  }

  /** `reduce((total, item) => total + item.price * item.quantity, acc)`, left to right. */
  function ReducePrice(items: seq<LineItem>, acc: real): real
  {
    if items == [] then acc else ReducePrice(items[1..], acc + items[0].LineTotal())
  }

  /** `reduce((count, item) => count + item.quantity, acc)`, left to right. */
  function ReduceCount(items: seq<LineItem>, acc: int): int
  {
    if items == [] then acc else ReduceCount(items[1..], acc + items[0].quantity)
  }

  lemma {:induction false} ReducePriceIsSum(items: seq<LineItem>, acc: real)
    ensures ReducePrice(items, acc) == acc + PriceSum(items)
  {
    if items != [] {
      ReducePriceIsSum(items[1..], acc + items[0].LineTotal());
    }
  }

  lemma {:induction false} ReduceCountIsSum(items: seq<LineItem>, acc: int)
    ensures ReduceCount(items, acc) == acc + QuantitySum(items)
  {
    if items != [] {
      ReduceCountIsSum(items[1..], acc + items[0].quantity);
    }
  }

  /** `getTotalPrice`: the fold started at 0 is the sum of the line totals. */
  function TotalPrice(items: seq<LineItem>): (r: real)
    ensures r == PriceSum(items)
  {
    ReducePriceIsSum(items, 0.0);
    ReducePrice(items, 0.0)
  }

  /** `getCartCount`: the fold started at 0 is the sum of the quantities. */
  function CartCount(items: seq<LineItem>): (r: int)
    ensures r == QuantitySum(items)
  {
    ReduceCountIsSum(items, 0);
    ReduceCount(items, 0)
  }

  // ---------------------------------------------------------------------
  // Properties of the sums
  // ---------------------------------------------------------------------

  /** Both sums are additive over concatenation. */
  lemma {:induction false} SumsAppend(a: seq<LineItem>, b: seq<LineItem>)
    ensures PriceSum(a + b) == PriceSum(a) + PriceSum(b)
    ensures QuantitySum(a + b) == QuantitySum(a) + QuantitySum(b)
  {
    if a == [] {
      assert a + b == b;
    } else {
      assert (a + b)[1..] == a[1..] + b;
      SumsAppend(a[1..], b);
    }
  }

  /** Replacing one line changes each sum by exactly that line's difference. */
  lemma SumsUpdate(items: seq<LineItem>, k: int, v: LineItem)
    requires 0 <= k < |items|
    ensures PriceSum(items[k := v]) == PriceSum(items) - items[k].LineTotal() + v.LineTotal()
    ensures QuantitySum(items[k := v]) == QuantitySum(items) - items[k].quantity + v.quantity
  {
    var pre, post := items[..k], items[k + 1..];
    assert items == pre + ([items[k]] + post);
    assert items[k := v] == pre + ([v] + post);
    SumsAppend(pre, [items[k]] + post);
    SumsAppend(pre, [v] + post);
    SumsAppend([items[k]], post);
    SumsAppend([v], post);
  }

  /** The totals do not depend on the order of the lines. */
  lemma {:induction false} SumsPermutation(a: seq<LineItem>, b: seq<LineItem>)
    requires multiset(a) == multiset(b)
    ensures PriceSum(a) == PriceSum(b)
    ensures QuantitySum(a) == QuantitySum(b)
    decreases |a|
  {
    if a == [] {
      assert |b| == |multiset(b)| == 0;
    } else {
      var x := a[0];
      assert x in multiset(b);
      var k :| 0 <= k < |b| && b[k] == x;
      var rest := b[..k] + b[k + 1..];
      assert b == b[..k] + ([x] + b[k + 1..]);
      SumsAppend(b[..k], [x] + b[k + 1..]);
      SumsAppend([x], b[k + 1..]);
      SumsAppend(b[..k], b[k + 1..]);
      assert a == [x] + a[1..];
      assert multiset(a[1..]) == multiset(rest) by {
        calc {
          multiset(b);
          multiset(b[..k] + ([x] + b[k + 1..]));
          multiset(b[..k]) + multiset([x] + b[k + 1..]);
          multiset(b[..k]) + multiset([x]) + multiset(b[k + 1..]);
          multiset([x]) + multiset(rest);
        }
        calc {
          multiset(a);
          multiset([x] + a[1..]);
          multiset([x]) + multiset(a[1..]);
        }
        assert multiset(a[1..]) == multiset(a) - multiset{x};
        assert multiset(rest) == multiset(b) - multiset{x};
      }
      SumsPermutation(a[1..], rest);
    }
  }

  /** With every quantity at least 1 the count is at least the number of lines. */
  lemma {:induction false} CountAtLeastLines(items: seq<LineItem>)
    ensures PositiveQuantities(items) ==> QuantitySum(items) >= |items|
  {
    if items != [] {
      CountAtLeastLines(items[1..]);
    }
  }

  /** Non-negative prices and positive quantities give a non-negative total. */
  lemma {:induction false} TotalNonNegative(items: seq<LineItem>)
    requires PositiveQuantities(items)
    requires forall i :: 0 <= i < |items| ==> items[i].product.price >= 0.0
    ensures PriceSum(items) >= 0.0
  {
    if items != [] {
      TotalNonNegative(items[1..]);
    }
  }

  // ---------------------------------------------------------------------
  // addToCart
  // ---------------------------------------------------------------------

  /** Under unique ids, `Find` returns the one line that carries the id. */
  lemma FindUnique(items: seq<LineItem>, k: int)
    requires UniqueIds(items)
    requires 0 <= k < |items|
    ensures Find(items, items[k].Id()) == Some(items[k])
  {
  }

  /**
   * Adding a product already in the cart raises that line's quantity by
   * exactly one and leaves every other line, and the length, unchanged.
   */
  lemma AddExisting(items: seq<LineItem>, product: Product, k: int)
    requires UniqueIds(items)
    requires 0 <= k < |items| && items[k].Id() == product.id
    ensures AddItem(items, product) == items[k := items[k].(quantity := items[k].quantity + 1)]
  {
  }

  /** Adding the same new product twice leaves one line of quantity 2 at the end. */
  lemma AddTwice(items: seq<LineItem>, product: Product)
    requires !Contains(items, product.id)
    ensures AddItem(AddItem(items, product), product) == items + [LineItem(product, 2)]
  {
  }

  /** Adding keeps ids unique and every quantity at least 1. */
  lemma AddItemWellFormed(items: seq<LineItem>, product: Product)
    requires WellFormed(items)
    ensures WellFormed(AddItem(items, product))
  {
  }

  /** One more unit adds one unit price to the line total. */
  lemma LineTotalBump(line: LineItem)
    ensures line.(quantity := line.quantity + 1).LineTotal() == line.LineTotal() + line.product.price
  {
  }

  /** Adding a present id adds one unit and that line's stored price. */
  lemma AddExistingSums(items: seq<LineItem>, product: Product, k: int)
    requires UniqueIds(items)
    requires 0 <= k < |items| && items[k].Id() == product.id
    ensures QuantitySum(AddItem(items, product)) == QuantitySum(items) + 1
    ensures PriceSum(AddItem(items, product)) == PriceSum(items) + items[k].product.price
  {
    var bumped := items[k].(quantity := items[k].quantity + 1);
    LineTotalBump(items[k]);
    SumsUpdate(items, k, bumped);
    AddExisting(items, product, k);
  }

  /**
   * Adding a product adds one unit to the count and one unit price to the
   * total: the price stored in the cart when the line exists, the product's
   * own price when it is new.
   */
  lemma AddItemSums(items: seq<LineItem>, product: Product)
    requires UniqueIds(items)
    ensures QuantitySum(AddItem(items, product)) == QuantitySum(items) + 1
    ensures PriceSum(AddItem(items, product)) == PriceSum(items) +
      match Find(items, product.id)
      case Some(line) => line.product.price
      case None => product.price
  {
    if Contains(items, product.id) {
      var k :| 0 <= k < |items| && items[k].Id() == product.id;
      AddExistingSums(items, product, k);
      FindUnique(items, k);
    } else {
      SumsAppend(items, [LineItem(product, 1)]);
    }
  }

  /**
   * Adding two new products in either order gives different sequences (the
   * insertion order is kept) holding the same lines, with the same totals.
   */
  lemma AddOrderAffectsOnlyOrder(items: seq<LineItem>, p: Product, q: Product)
    requires !Contains(items, p.id) && !Contains(items, q.id) && p.id != q.id
    ensures AddItem(AddItem(items, p), q) != AddItem(AddItem(items, q), p)
    ensures multiset(AddItem(AddItem(items, p), q)) == multiset(AddItem(AddItem(items, q), p))
    ensures PriceSum(AddItem(AddItem(items, p), q)) == PriceSum(AddItem(AddItem(items, q), p))
    ensures QuantitySum(AddItem(AddItem(items, p), q)) == QuantitySum(AddItem(AddItem(items, q), p))
  {
    var pq := AddItem(AddItem(items, p), q);
    var qp := AddItem(AddItem(items, q), p);
    assert pq == items + [LineItem(p, 1), LineItem(q, 1)];
    assert qp == items + [LineItem(q, 1), LineItem(p, 1)];
    assert pq[|items|] != qp[|items|];
    SumsPermutation(pq, qp);
  }

  // ---------------------------------------------------------------------
  // removeFromCart
  // ---------------------------------------------------------------------

  /** Filtering distributes over concatenation: relative order is kept. */
  lemma {:induction false} RemoveItemAppend(a: seq<LineItem>, b: seq<LineItem>, id: ProductId)
    ensures RemoveItem(a + b, id) == RemoveItem(a, id) + RemoveItem(b, id)
  {
    if a == [] {
      assert a + b == b;
    } else {
      assert (a + b)[1..] == a[1..] + b;
      RemoveItemAppend(a[1..], b, id);
    }
  }

  /** The lines a remove keeps are exactly the lines with another id. */
  lemma {:induction false} RemoveItemMembers(items: seq<LineItem>, id: ProductId)
    ensures forall x :: x in RemoveItem(items, id) <==> x in items && x.Id() != id
  {
    if items != [] {
      RemoveItemMembers(items[1..], id);
      assert items == [items[0]] + items[1..];
    }
  }

  /** Under unique ids, the lines before and after a line carry other ids. */
  lemma OtherIdsAround(items: seq<LineItem>, k: int)
    requires UniqueIds(items)
    requires 0 <= k < |items|
    ensures !Contains(items[..k], items[k].Id())
    ensures !Contains(items[k + 1..], items[k].Id())
  {
  }

  /** Under unique ids, removing a present id cuts exactly its line out. */
  lemma {:induction false} RemoveAt(items: seq<LineItem>, k: int)
    requires UniqueIds(items)
    requires 0 <= k < |items|
    ensures RemoveItem(items, items[k].Id()) == items[..k] + items[k + 1..]
    decreases k
  {
    var id := items[k].Id();
    if k == 0 {
      OtherIdsAround(items, 0);
      RemoveAbsent(items[1..], id);
      assert items[..0] + items[1..] == items[1..];
    } else {
      var tail := items[1..];
      assert tail[k - 1] == items[k];
      assert UniqueIds(tail) by {
        forall i, j | 0 <= i < j < |tail| ensures tail[i].Id() != tail[j].Id() {
          assert tail[i] == items[i + 1] && tail[j] == items[j + 1];
        }
      }
      RemoveAt(tail, k - 1);
      assert items[0].Id() != id;
      assert items[..k] + items[k + 1..] == [items[0]] + (tail[..k - 1] + tail[k..]);
    }
  }

  /** After a remove no line carries the id. */
  lemma {:induction false} RemoveLeavesNone(items: seq<LineItem>, id: ProductId)
    ensures !Contains(RemoveItem(items, id), id)
  {
    if items != [] {
      RemoveLeavesNone(items[1..], id);
      var rest := RemoveItem(items[1..], id);
      if items[0].Id() != id {
        var r := [items[0]] + rest;
        forall i | 0 <= i < |r| ensures r[i].Id() != id {
          if i > 0 { assert r[i] == rest[i - 1]; }
        }
      }
    }
  }

  /** Removing an absent id leaves the cart unchanged. */
  lemma {:induction false} RemoveAbsent(items: seq<LineItem>, id: ProductId)
    requires !Contains(items, id)
    ensures RemoveItem(items, id) == items
  {
    if items != [] {
      assert !Contains(items[1..], id) by {
        forall i | 0 <= i < |items[1..]| ensures items[1..][i].Id() != id {
          assert items[1..][i] == items[i + 1];
        }
      }
      RemoveAbsent(items[1..], id);
      assert items == [items[0]] + items[1..];
    }
  }

  /** Removing twice is removing once. */
  lemma RemoveIdempotent(items: seq<LineItem>, id: ProductId)
    ensures RemoveItem(RemoveItem(items, id), id) == RemoveItem(items, id)
  {
    RemoveLeavesNone(items, id);
    RemoveAbsent(RemoveItem(items, id), id);
  }

  /** Cutting one line out of a well-formed cart leaves a well-formed cart. */
  lemma CutWellFormed(items: seq<LineItem>, k: int)
    requires WellFormed(items)
    requires 0 <= k < |items|
    ensures WellFormed(items[..k] + items[k + 1..])
  {
  }

  /** Cutting one line out takes its units and its line total off the sums. */
  lemma CutSums(items: seq<LineItem>, k: int)
    requires 0 <= k < |items|
    ensures QuantitySum(items[..k] + items[k + 1..]) == QuantitySum(items) - items[k].quantity
    ensures PriceSum(items[..k] + items[k + 1..]) == PriceSum(items) - items[k].LineTotal()
  {
    var pre, line, post := items[..k], [items[k]], items[k + 1..];
    assert items == pre + (line + post);
    SumsAppend(pre, line + post);
    SumsAppend(line, post);
    SumsAppend(pre, post);
  }

  /** Removing keeps both invariants. */
  lemma RemoveItemWellFormed(items: seq<LineItem>, id: ProductId)
    requires WellFormed(items)
    ensures WellFormed(RemoveItem(items, id))
  {
    if Contains(items, id) {
      var k :| 0 <= k < |items| && items[k].Id() == id;
      RemoveAt(items, k);
      CutWellFormed(items, k);
    } else {
      RemoveAbsent(items, id);
    }
  }

  /** Removing a present line takes its units and its line total off the sums. */
  lemma RemoveItemSums(items: seq<LineItem>, k: int)
    requires UniqueIds(items)
    requires 0 <= k < |items|
    ensures QuantitySum(RemoveItem(items, items[k].Id())) == QuantitySum(items) - items[k].quantity
    ensures PriceSum(RemoveItem(items, items[k].Id())) == PriceSum(items) - items[k].LineTotal()
  {
    RemoveAt(items, k);
    CutSums(items, k);
  }

  // ---------------------------------------------------------------------
  // updateQuantity
  // ---------------------------------------------------------------------

  /** Under unique ids, only the line with the id changes, to exactly the quantity. */
  lemma SetQuantityAt(items: seq<LineItem>, k: int, quantity: int)
    requires UniqueIds(items)
    requires 0 <= k < |items|
    ensures SetQuantity(items, items[k].Id(), quantity) == items[k := items[k].(quantity := quantity)]
  {
  }

  /** Overwriting with a positive quantity keeps both invariants. */
  lemma SetQuantityWellFormed(items: seq<LineItem>, id: ProductId, quantity: int)
    requires WellFormed(items)
    requires quantity >= 1
    ensures WellFormed(SetQuantity(items, id, quantity))
  {
  }

  /** Setting a present line's quantity changes the count by the difference. */
  lemma SetQuantitySums(items: seq<LineItem>, k: int, quantity: int)
    requires UniqueIds(items)
    requires 0 <= k < |items|
    ensures QuantitySum(SetQuantity(items, items[k].Id(), quantity)) ==
            QuantitySum(items) - items[k].quantity + quantity
    ensures PriceSum(SetQuantity(items, items[k].Id(), quantity)) ==
            PriceSum(items) - items[k].LineTotal() + items[k].(quantity := quantity).LineTotal()
  {
    SetQuantityAt(items, k, quantity);
    SumsUpdate(items, k, items[k].(quantity := quantity));
  }

  /** The example of `getCartCount`'s documentation: quantities 1 and 3 count 4. */
  lemma CountExample(a: Product, b: Product)
    ensures QuantitySum([LineItem(a, 1), LineItem(b, 3)]) == 4
  {
    var items := [LineItem(a, 1), LineItem(b, 3)];
    assert items[1..] == [LineItem(b, 3)];
    assert items[1..][1..] == [];
    assert QuantitySum(items[1..][1..]) == 0;
    assert QuantitySum(items[1..]) == 3;
  }
}
