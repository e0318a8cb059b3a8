/** Properties that relate several calls of the cart operations, and the
    aggregates `cartTotal` / `itemCount` after a change. */
module CartLaws {
  import opened Common
  import opened CartModel

  lemma {:induction false} TotalAppend(a: seq<CartItem>, b: seq<CartItem>)
    ensures Total(a + b) == Total(a) + Total(b)
  {
    if a != [] {
      assert (a + b)[1..] == a[1..] + b;
      TotalAppend(a[1..], b);
    } else {
      assert a + b == b;
    }
  }

  lemma {:induction false} ItemCountAppend(a: seq<CartItem>, b: seq<CartItem>)
    ensures ItemCount(a + b) == ItemCount(a) + ItemCount(b)
  {
    if a != [] {
      assert (a + b)[1..] == a[1..] + b;
      ItemCountAppend(a[1..], b);
    } else {
      assert a + b == b;
    }
  }

  /** With every quantity at least 1, `itemCount` is at least the number of lines. */
  lemma {:induction false} ItemCountAtLeastLines(items: seq<CartItem>)
    requires Positive(items)
    ensures ItemCount(items) >= |items|
  {
    if items != [] {
      assert Positive(items[1..]) by {
        forall i | 0 <= i < |items| - 1 ensures items[1..][i].quantity >= 1 {
          assert items[1..][i] == items[i + 1];
        }
      }
      ItemCountAtLeastLines(items[1..]);
    }
  }

  /** With non-negative prices and quantities, `cartTotal` is non-negative. */
  lemma {:induction false} TotalNonNegative(items: seq<CartItem>)
    requires forall i :: 0 <= i < |items| ==> items[i].price >= 0 && items[i].quantity >= 0
    ensures Total(items) >= 0
  {
    if items != [] {
      var c := items[0];
      assert LineTotal(c) >= 0 by {
        assert c.price >= 0 && c.quantity >= 0;
      }
      assert forall i :: 0 <= i < |items| - 1 ==> items[1..][i] == items[i + 1];
      TotalNonNegative(items[1..]);
    }
  }

  /** Replacing one line changes the total by the difference of the two lines. */
  lemma {:induction false} TotalUpdate(s: seq<CartItem>, k: nat, e: CartItem)
    requires k < |s|
    ensures Total(s[k := e]) == Total(s) - LineTotal(s[k]) + LineTotal(e)
  {
    if k > 0 {
      assert s[k := e][1..] == s[1..][k - 1 := e];
      TotalUpdate(s[1..], k - 1, e);
    } else {
      assert s[k := e][1..] == s[1..];
    }
  }

  /** Replacing one line changes the item count by the difference of quantities. */
  lemma {:induction false} ItemCountUpdate(s: seq<CartItem>, k: nat, e: CartItem)
    requires k < |s|
    ensures ItemCount(s[k := e]) == ItemCount(s) - s[k].quantity + e.quantity
  {
    if k > 0 {
      assert s[k := e][1..] == s[1..][k - 1 := e];
      ItemCountUpdate(s[1..], k - 1, e);
    } else {
      assert s[k := e][1..] == s[1..];
    }
  }

  /** With distinct ids, adding a product already in the cart is an update of
      its one line. */
  lemma {:induction false} AddExistingIsUpdate(cart: seq<CartItem>, p: Product, k: nat)
    requires UniqueIds(cart) && k < |cart| && cart[k].id == p.id
    ensures AddItem(cart, p) == cart[k := cart[k].(quantity := cart[k].quantity + 1)]
  {
  }

  /** `addToCart` with an id already in the cart: `itemCount` grows by one and
      `cartTotal` by the STORED price of that line. */
  lemma {:induction false} AddExistingAggregates(cart: seq<CartItem>, p: Product, k: nat)
    requires UniqueIds(cart) && k < |cart| && cart[k].id == p.id
    ensures ItemCount(AddItem(cart, p)) == ItemCount(cart) + 1
    ensures Total(AddItem(cart, p)) == Total(cart) + cart[k].price
  {
    var e := cart[k].(quantity := cart[k].quantity + 1);
    var r := AddItem(cart, p);
    AddExistingIsUpdate(cart, p, k);
    assert r == cart[k := e];
    ItemCountUpdate(cart, k, e);
    assert ItemCount(r) == ItemCount(cart) + 1;
    TotalUpdate(cart, k, e);
    LineTotalOneMore(cart[k]);
    assert Total(r) == Total(cart) + cart[k].price;
  }

  lemma {:induction false} LineTotalOneMore(c: CartItem)
    ensures LineTotal(c.(quantity := c.quantity + 1)) == LineTotal(c) + c.price
  {
    assert c.price * (c.quantity + 1) == c.price * c.quantity + c.price;
  }

  /** `addToCart` with a new id: `itemCount` grows by one and `cartTotal` by
      the product's price. */
  lemma {:induction false} AddNewAggregates(cart: seq<CartItem>, p: Product)
    requires p.id !in CartIds(cart)
    ensures ItemCount(AddItem(cart, p)) == ItemCount(cart) + 1
    ensures Total(AddItem(cart, p)) == Total(cart) + p.price
  {
    var line := WithQuantity(p, 1);
    ItemCountAppend(cart, [line]);
    TotalAppend(cart, [line]);
    assert ItemCount([line]) == 1 && Total([line]) == p.price;
  }

  /** `n` calls of `addToCart` with the same product. */
  function AddTimes(cart: seq<CartItem>, p: Product, n: nat): seq<CartItem>
  {
    if n == 0 then cart else AddItem(AddTimes(cart, p, n - 1), p)
  }

  /** From an empty cart, `n` adds of one product give a single line of
      quantity `n`. */
  lemma {:induction false} AddTimesFromEmpty(p: Product, n: nat)
    requires n >= 1
    ensures AddTimes([], p, n) == [WithQuantity(p, n)]
  {
    if n > 1 {
      AddTimesFromEmpty(p, n - 1);
      var before := [WithQuantity(p, n - 1)];
      assert CartIds(before)[0] == p.id;
    }
  }

  /** Removing the same id twice is removing it once. */
  lemma {:induction false} RemoveItemIdempotent(cart: seq<CartItem>, id: string)
    ensures RemoveItem(RemoveItem(cart, id), id) == RemoveItem(cart, id)
  {
  }

  /** `updateQuantity(id, 0)` and `removeFromCart(id)` leave the same cart. */
  lemma {:induction false} SetZeroIsRemove(cart: seq<CartItem>, id: string)
    ensures SetQuantity(cart, id, 0) == RemoveItem(cart, id)
  {
  }

  /** Deleting the same cancelled record twice is deleting it once. */
  lemma {:induction false} RemoveOrderIdempotent(orders: seq<Order>, id: string)
    ensures RemoveOrder(RemoveOrder(orders, id), id) == RemoveOrder(orders, id)
  {
  }

  /** Deleting a cancelled record by the id `cancelOrder` gave it restores the
      cancelled list as it was before the cancellation. */
  lemma {:induction false} CancelThenDelete(cancelled: seq<Order>, o: Order, newId: string, date: string)
    requires newId !in OrderIds(cancelled)
    ensures RemoveOrder(cancelled + [CancelledCopy(o, newId, date)], newId) == cancelled
  {
    var keep := (x: Order) => x.id != newId;
    var copy := CancelledCopy(o, newId, date);
    FilterAppend(cancelled, [copy], keep);
    assert Filter([copy], keep) == [] by {
      assert [copy][1..] == [];
    }
    forall i | 0 <= i < |cancelled| ensures keep(cancelled[i]) {
      assert OrderIds(cancelled)[i] == cancelled[i].id;
    }
    FilterAllKept(cancelled, keep);
    assert Filter(cancelled, keep) + [] == cancelled;
  }

  /** Deleting by the original order id leaves the cancelled record in place:
      it carries a different id. */
  lemma {:induction false} DeleteByOriginalIdKeepsCopy(cancelled: seq<Order>, o: Order, newId: string, date: string)
    requires newId != o.id
    ensures CancelledCopy(o, newId, date) in RemoveOrder(cancelled + [CancelledCopy(o, newId, date)], o.id)
  {
    var copy := CancelledCopy(o, newId, date);
    assert copy in cancelled + [copy];
  }
}
