/** The values held by the cart/order state container and the pure
    computations each of its operations performs on them
    (app/context/CartContext.tsx). Money is an integer number of cents. */
module CartModel {
  import opened Common

  /** What a product page hands to `addToCart`: a line item without a quantity. */
  datatype Product = Product(id: string, name: string, price: int, image: string, brand: Option<string>)

  /** One line of the cart, keyed by `id` (product id plus selected colour). */
  datatype CartItem = CartItem(id: string, name: string, price: int, image: string, brand: Option<string>, quantity: int)

  datatype OrderStatus = Processing | Shipped | Delivered | Cancelled

  datatype Order = Order(id: string, items: seq<CartItem>, total: int, date: string,
                         status: OrderStatus, trackingNumber: Option<string>)

  /** `{ ...item, quantity }` for a product. */
  function WithQuantity(p: Product, quantity: int): (r: CartItem)
    ensures r.id == p.id && r.name == p.name && r.price == p.price
    ensures r.image == p.image && r.brand == p.brand && r.quantity == quantity
  {
    CartItem(p.id, p.name, p.price, p.image, p.brand, quantity)
  }

  function LineTotal(item: CartItem): int { item.price * item.quantity }

  /** Σ price × quantity: `cartTotal`, and the `total` of a new order. */
  function Total(items: seq<CartItem>): int
  {
    if items == [] then 0 else LineTotal(items[0]) + Total(items[1..])
  }

  /** Σ quantity: `itemCount`, the number shown on the cart badge. */
  function ItemCount(items: seq<CartItem>): int
  {
    if items == [] then 0 else items[0].quantity + ItemCount(items[1..])
  }

  function CartIds(items: seq<CartItem>): (r: seq<string>)
    ensures |r| == |items| && forall i :: 0 <= i < |items| ==> r[i] == items[i].id
  {
    seq(|items|, i requires 0 <= i < |items| => items[i].id)
  }

  function OrderIds(orders: seq<Order>): (r: seq<string>)
    ensures |r| == |orders| && forall i :: 0 <= i < |orders| ==> r[i] == orders[i].id
  {
    seq(|orders|, i requires 0 <= i < |orders| => orders[i].id)
  }

  predicate UniqueIds(items: seq<CartItem>)
  {
    forall i, j :: 0 <= i < j < |items| ==> items[i].id != items[j].id
  }

  predicate UniqueOrderIds(orders: seq<Order>)
  {
    forall i, j :: 0 <= i < j < |orders| ==> orders[i].id != orders[j].id
  }

  /** Every line has quantity at least 1. */
  predicate Positive(items: seq<CartItem>)
  {
    forall i :: 0 <= i < |items| ==> items[i].quantity >= 1
  }

  // ---------------------------------------------------------------- cart

  /** `addToCart`: bump the quantity of the line with the product's id, keeping
      the stored name, price and image; or append a new line of quantity 1. */
  function AddItem(cart: seq<CartItem>, p: Product): (r: seq<CartItem>)
    ensures p.id in CartIds(cart) ==> |r| == |cart|
    ensures p.id in CartIds(cart) ==> forall i :: 0 <= i < |cart| ==>
      r[i] == cart[i].(quantity := r[i].quantity) &&
      r[i].quantity == cart[i].quantity + (if cart[i].id == p.id then 1 else 0)
    ensures p.id !in CartIds(cart) ==> r == cart + [WithQuantity(p, 1)]
    ensures UniqueIds(cart) ==> UniqueIds(r)
    ensures Positive(cart) ==> Positive(r)
  {
    if p.id in CartIds(cart) then
      seq(|cart|, i requires 0 <= i < |cart| =>
        if cart[i].id == p.id then cart[i].(quantity := cart[i].quantity + 1) else cart[i])
    else
      cart + [WithQuantity(p, 1)]
  }

  /** `removeFromCart`: keep the lines whose id differs. */
  function RemoveItem(cart: seq<CartItem>, id: string): (r: seq<CartItem>)
    ensures forall c :: c in r <==> c in cart && c.id != id
    ensures forall c :: multiset(r)[c] == if c.id != id then multiset(cart)[c] else 0
    ensures IsSubsequence(r, cart)
    ensures id !in CartIds(r)
    ensures id !in CartIds(cart) ==> r == cart
    ensures UniqueIds(cart) ==> UniqueIds(r)
    ensures Positive(cart) ==> Positive(r)
  {
    var r := Filter(cart, (c: CartItem) => c.id != id);
    FilterCounts(cart, (c: CartItem) => c.id != id);
    assert UniqueIds(cart) ==> UniqueIds(r) by {
      if UniqueIds(cart) { UniqueAfterFilter(cart, r); }
    }
    assert Positive(cart) ==> Positive(r) by {
      forall i | 0 <= i < |r| ensures r[i] in cart { assert r[i] in r; }
    }
    if id !in CartIds(cart) then
      FilterAllKept(cart, (c: CartItem) => c.id != id);
      r
    else
      r
  }

  /** `updateQuantity`: below 1 it is a removal; otherwise the matching lines
      take the new quantity and nothing else changes. */
  function SetQuantity(cart: seq<CartItem>, id: string, quantity: int): (r: seq<CartItem>)
    ensures quantity < 1 ==> r == RemoveItem(cart, id)
    ensures quantity >= 1 ==> |r| == |cart|
    ensures quantity >= 1 ==> forall i :: 0 <= i < |cart| ==>
      r[i] == cart[i].(quantity := r[i].quantity) &&
      r[i].quantity == if cart[i].id == id then quantity else cart[i].quantity
    ensures UniqueIds(cart) ==> UniqueIds(r)
    ensures Positive(cart) ==> Positive(r)
  {
    if quantity < 1 then
      RemoveItem(cart, id)
    else
      seq(|cart|, i requires 0 <= i < |cart| =>
        if cart[i].id == id then cart[i].(quantity := quantity) else cart[i])
  }

  /** A subsequence of a cart with distinct ids has distinct ids. */
  lemma {:induction false} UniqueAfterFilter(cart: seq<CartItem>, r: seq<CartItem>)
    requires UniqueIds(cart) && IsSubsequence(r, cart)
    ensures UniqueIds(r)
    decreases |cart|
  {
    if r != [] && cart != [] {
      UniqueIds1(cart);
      if r[0] == cart[0] {
        UniqueAfterFilter(cart[1..], r[1..]);
        SubsequenceMembers(r[1..], cart[1..]);
        forall j | 0 < j < |r| ensures r[0].id != r[j].id {
          assert r[1..][j - 1] in cart[1..];
        }
      } else {
        UniqueAfterFilter(cart[1..], r);
      }
    }
  }

  lemma {:induction false} UniqueIds1(cart: seq<CartItem>)
    requires UniqueIds(cart) && cart != []
    ensures UniqueIds(cart[1..])
    ensures forall c :: c in cart[1..] ==> c.id != cart[0].id
  {
    forall c | c in cart[1..] ensures c.id != cart[0].id {
      var j :| 0 <= j < |cart[1..]| && cart[1..][j] == c;
      assert cart[j + 1] == c;
    }
  }

  lemma {:induction false} SubsequenceMembers<T>(r: seq<T>, s: seq<T>)
    requires IsSubsequence(r, s)
    ensures forall x :: x in r ==> x in s
    decreases |s|
  {
    if r != [] && s != [] {
      if r[0] == s[0] {
        SubsequenceMembers(r[1..], s[1..]);
        assert r == [r[0]] + r[1..];
      } else {
        SubsequenceMembers(r, s[1..]);
      }
    }
  }

  // ---------------------------------------------------------------- orders

  /** The cart lines still there after `placeOrder(items)`: those whose id
      occurs in no ordered item. */
  function RemoveOrdered(cart: seq<CartItem>, items: seq<CartItem>): (r: seq<CartItem>)
    ensures forall c :: c in r <==> c in cart && c.id !in CartIds(items)
    ensures forall c :: multiset(r)[c] == if c.id !in CartIds(items) then multiset(cart)[c] else 0
    ensures IsSubsequence(r, cart)
    ensures forall id :: id in CartIds(items) ==> id !in CartIds(r)
    ensures UniqueIds(cart) ==> UniqueIds(r)
    ensures Positive(cart) ==> Positive(r)
  {
    var r := Filter(cart, (c: CartItem) => c.id !in CartIds(items));
    FilterCounts(cart, (c: CartItem) => c.id !in CartIds(items));
    assert UniqueIds(cart) ==> UniqueIds(r) by {
      if UniqueIds(cart) { UniqueAfterFilter(cart, r); }
    }
    assert Positive(cart) ==> Positive(r) by {
      forall i | 0 <= i < |r| ensures r[i] in cart { assert r[i] in r; }
    }
    r
  }

  /** The order `placeOrder` records: a copy of the items, their Σ price ×
      quantity, status processing. */
  function NewOrder(items: seq<CartItem>, id: string, date: string, tracking: string): Order
  {
    Order(id, items, Total(items), date, Processing, Some(tracking))
  }

  /** `orders.find(o => o.id === id)`: the first order with that id. */
  function FindOrder(orders: seq<Order>, id: string): (r: Option<Order>)
    ensures r.None? <==> id !in OrderIds(orders)
    ensures r.Some? ==> r.value in orders && r.value.id == id
    ensures r.Some? ==> FirstWithId(orders, id, r.value)
  {
    if orders == [] then None
    else if orders[0].id == id then
      Some(orders[0])
    else
      var r := FindOrder(orders[1..], id);
      assert forall x :: x in orders[1..] ==> x in orders;
      if r.Some? then
        FirstWithIdCons(orders, id, r.value);
        r
      else
        r
  }

  /** `o` is the first order in `orders` whose id is `id`. */
  predicate FirstWithId(orders: seq<Order>, id: string, o: Order)
  {
    exists k :: 0 <= k < |orders| && orders[k] == o && forall j :: 0 <= j < k ==> orders[j].id != id
  }

  lemma {:induction false} FirstWithIdCons(orders: seq<Order>, id: string, o: Order)
    requires orders != [] && orders[0].id != id && FirstWithId(orders[1..], id, o)
    ensures FirstWithId(orders, id, o)
  {
    var k :| 0 <= k < |orders[1..]| && orders[1..][k] == o &&
             forall j :: 0 <= j < k ==> orders[1..][j].id != id;
    assert orders[k + 1] == o;
    forall j | 0 <= j < k + 1 ensures orders[j].id != id {
      if j > 0 { assert orders[j] == orders[1..][j - 1]; }
    }
  }

  /** `orders.filter(o => o.id !== id)`: used for the active list by
      `cancelOrder` and for the cancelled list by `deleteCancelledOrder`. */
  function RemoveOrder(orders: seq<Order>, id: string): (r: seq<Order>)
    ensures forall o :: o in r <==> o in orders && o.id != id
    ensures forall o :: multiset(r)[o] == if o.id != id then multiset(orders)[o] else 0
    ensures IsSubsequence(r, orders)
    ensures id !in OrderIds(r)
    ensures id !in OrderIds(orders) ==> r == orders
    ensures UniqueOrderIds(orders) ==> UniqueOrderIds(r)
  {
    var r := Filter(orders, (o: Order) => o.id != id);
    FilterCounts(orders, (o: Order) => o.id != id);
    assert UniqueOrderIds(orders) ==> UniqueOrderIds(r) by {
      if UniqueOrderIds(orders) { UniqueOrdersAfterFilter(orders, r); }
    }
    if id !in OrderIds(orders) then
      FilterAllKept(orders, (o: Order) => o.id != id);
      r
    else
      r
  }

  /** A subsequence of an order list with distinct ids has distinct ids. */
  lemma {:induction false} UniqueOrdersAfterFilter(orders: seq<Order>, r: seq<Order>)
    requires UniqueOrderIds(orders) && IsSubsequence(r, orders)
    ensures UniqueOrderIds(r)
    decreases |orders|
  {
    if r != [] && orders != [] {
      assert UniqueOrderIds(orders[1..]);
      if r[0] == orders[0] {
        UniqueOrdersAfterFilter(orders[1..], r[1..]);
        SubsequenceMembers(r[1..], orders[1..]);
        forall j | 0 < j < |r| ensures r[0].id != r[j].id {
          assert r[1..][j - 1] in orders[1..];
          var k :| 0 <= k < |orders[1..]| && orders[1..][k] == r[j];
          assert orders[k + 1] == r[j];
        }
      } else {
        UniqueOrdersAfterFilter(orders[1..], r);
      }
    }
  }

  /** Appending an order under a fresh id keeps the ids distinct. */
  lemma {:induction false} AppendFreshOrder(orders: seq<Order>, o: Order)
    requires o.id !in OrderIds(orders)
    ensures UniqueOrderIds(orders) ==> UniqueOrderIds(orders + [o])
  {
    forall i | 0 <= i < |orders| ensures (orders + [o])[i].id != o.id {
      assert OrderIds(orders)[i] == orders[i].id;
    }
  }

  lemma {:induction false} OrderIdOf(orders: seq<Order>, o: Order)
    requires o in orders
    ensures o.id in OrderIds(orders)
  {
    var i :| 0 <= i < |orders| && orders[i] == o;
    assert OrderIds(orders)[i] == o.id;
  }

  /** The record `cancelOrder` files: the order with a new id, status
      cancelled and the cancellation date; items, total and tracking kept. */
  function CancelledCopy(o: Order, newId: string, date: string): Order
  {
    o.(id := newId, status := Cancelled, date := date)
  }
}
