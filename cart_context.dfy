/** The cart/order state container (`CartProvider` in
    app/context/CartContext.tsx) as an object whose fields the operations
    replace. Every new value is the one the pure functions of CartModel and
    Reorder compute; ids, dates and tracking numbers that the source draws from
    the clock and the random generator are passed in by the caller. */
module CartContext {
  import opened Common
  import opened CartModel
  import opened Reorder
  import opened CartLaws

  /** What one local-storage slot yields at start-up: nothing stored (or an
      empty string), text that `JSON.parse` rejects, or a parsed collection. */
  datatype Slot<T> = Missing | Corrupt | Stored(value: T)

  class CartProvider {
    var cart: seq<CartItem>
    var orders: seq<Order>
    var cancelledOrders: seq<Order>
    var isInitialized: bool

    /** The shape every operation keeps: lines with distinct ids and
        quantities of at least 1, and orders with distinct ids in each list. */
    predicate Valid()
      reads this
    {
      && UniqueIds(cart) && Positive(cart)
      && UniqueOrderIds(orders) && UniqueOrderIds(cancelledOrders)
    }

    constructor ()
      ensures cart == [] && orders == [] && cancelledOrders == [] && !isInitialized
      ensures Valid()
    {
      cart, orders, cancelledOrders := [], [], [];
      isInitialized := false;
    }

    /** `loadData`: each stored slot replaces its collection; a slot that
        fails to parse aborts the load and resets all three collections. The
        provider counts as initialized afterwards in every case. */
    method LoadData(savedCart: Slot<seq<CartItem>>, savedOrders: Slot<seq<Order>>,
                    savedCancelled: Slot<seq<Order>>)
      modifies this
      ensures isInitialized
      ensures savedCart.Corrupt? || savedOrders.Corrupt? || savedCancelled.Corrupt? ==>
                cart == [] && orders == [] && cancelledOrders == [] && Valid()
      ensures !(savedCart.Corrupt? || savedOrders.Corrupt? || savedCancelled.Corrupt?) ==>
                && cart == (if savedCart.Stored? then savedCart.value else old(cart))
                && orders == (if savedOrders.Stored? then savedOrders.value else old(orders))
                && cancelledOrders == (if savedCancelled.Stored? then savedCancelled.value else old(cancelledOrders))
    {
      var failed := false;
      if savedCart.Corrupt? {
        failed := true;
      } else if savedCart.Stored? {
        cart := savedCart.value;
      }
      if !failed {
        if savedOrders.Corrupt? {
          failed := true;
        } else if savedOrders.Stored? {
          orders := savedOrders.value;
        }
      }
      if !failed {
        if savedCancelled.Corrupt? {
          failed := true;
        } else if savedCancelled.Stored? {
          cancelledOrders := savedCancelled.value;
        }
      }
      if failed {
        cart, orders, cancelledOrders := [], [], [];
      }
      isInitialized := true;
    }

    method AddToCart(p: Product)
      modifies this
      ensures cart == AddItem(old(cart), p)
      ensures orders == old(orders) && cancelledOrders == old(cancelledOrders)
      ensures isInitialized == old(isInitialized)
      ensures old(Valid()) ==> Valid()
    {
      cart := AddItem(cart, p);
    }

    method RemoveFromCart(id: string)
      modifies this
      ensures cart == RemoveItem(old(cart), id)
      ensures orders == old(orders) && cancelledOrders == old(cancelledOrders)
      ensures isInitialized == old(isInitialized)
      ensures old(Valid()) ==> Valid()
    {
      cart := RemoveItem(cart, id);
    }

    method UpdateQuantity(id: string, quantity: int)
      modifies this
      ensures cart == SetQuantity(old(cart), id, quantity)
      ensures quantity < 1 ==> cart == RemoveItem(old(cart), id)
      ensures orders == old(orders) && cancelledOrders == old(cancelledOrders)
      ensures isInitialized == old(isInitialized)
      ensures old(Valid()) ==> Valid()
    {
      if quantity < 1 {
        RemoveFromCart(id);
        return;
      }
      cart := SetQuantity(cart, id, quantity);
    }

    method ClearCart()
      modifies this
      ensures cart == []
      ensures orders == old(orders) && cancelledOrders == old(cancelledOrders)
      ensures isInitialized == old(isInitialized)
      ensures old(Valid()) ==> Valid()
    {
      cart := [];
    }

    /** `placeOrder`: record a processing order for exactly `items`, priced at
        Σ price × quantity, and take every line with an ordered id out of the
        cart. `id` stands for the clock-derived `ORD-…` token. */
    method PlaceOrder(items: seq<CartItem>, id: string, date: string, tracking: string)
      returns (order: Order)
      requires id !in OrderIds(orders)
      modifies this
      ensures order.id == id && order.items == items && order.total == Total(items)
      ensures order.status == Processing && order.date == date && order.trackingNumber == Some(tracking)
      ensures orders == old(orders) + [order]
      ensures UniqueOrderIds(old(orders)) ==> UniqueOrderIds(orders)
      ensures cart == RemoveOrdered(old(cart), items)
      ensures cancelledOrders == old(cancelledOrders) && isInitialized == old(isInitialized)
      ensures old(Valid()) ==> Valid()
    {
      order := NewOrder(items, id, date, tracking);
      AppendFreshOrder(orders, order);
      orders := orders + [order];
      cart := RemoveOrdered(cart, items);
    }

    /** `cancelOrder`: when an order has this id, drop every order with the id
        from the active list and file a cancelled copy under the fresh id
        `newId` (the `CANCEL-…` token); otherwise change nothing. */
    method CancelOrder(orderId: string, newId: string, date: string)
      requires newId !in OrderIds(orders) && newId !in OrderIds(cancelledOrders)
      modifies this
      ensures FindOrder(old(orders), orderId).None? ==>
                orders == old(orders) && cancelledOrders == old(cancelledOrders)
      ensures FindOrder(old(orders), orderId).Some? ==>
                var o := FindOrder(old(orders), orderId).value;
                && orders == RemoveOrder(old(orders), orderId)
                && cancelledOrders == old(cancelledOrders) + [CancelledCopy(o, newId, date)]
                && newId != orderId
                && orderId !in OrderIds(orders)
      ensures cart == old(cart) && isInitialized == old(isInitialized)
      ensures old(Valid()) ==> Valid()
    {
      var orderToCancel := FindOrder(orders, orderId);
      if orderToCancel.Some? {
        var cancelledOrder := CancelledCopy(orderToCancel.value, newId, date);
        var remaining := RemoveOrder(orders, orderId);
        CancelKeepsIdsDistinct(orders, cancelledOrders, orderToCancel.value, newId, date);
        assert orderId !in OrderIds(remaining) && (UniqueOrderIds(orders) ==> UniqueOrderIds(remaining));
        cancelledOrders := cancelledOrders + [cancelledOrder];
        orders := remaining;
      }
    }

    method DeleteCancelledOrder(orderId: string)
      modifies this
      ensures cancelledOrders == RemoveOrder(old(cancelledOrders), orderId)
      ensures cart == old(cart) && orders == old(orders) && isInitialized == old(isInitialized)
      ensures old(Valid()) ==> Valid()
    {
      cancelledOrders := RemoveOrder(cancelledOrders, orderId);
    }

    /** `reorderItems`: rebuild the cart from a `Map` holding the cart and then
        the reordered items. */
    method ReorderItems(items: seq<CartItem>)
      modifies this
      ensures cart == Reordered(old(cart), items)
      ensures orders == old(orders) && cancelledOrders == old(cancelledOrders)
      ensures isInitialized == old(isInitialized)
      ensures UniqueIds(cart)
      ensures old(Valid()) && Positive(items) ==> Valid()
    {
      var merged := BuildItemsMap(cart, items);
      ReorderedUnique(cart, items);
      if Positive(cart) && Positive(items) {
        ReorderedPositive(cart, items);
      }
      cart := merged;
    }

    /** `cartTotal`: never negative while prices are not. */
    function CartTotal(): (r: int)
      reads this
      ensures Valid() && (forall i :: 0 <= i < |cart| ==> cart[i].price >= 0) ==> r >= 0
    {
      var r := Total(cart);
      assert Valid() && (forall i :: 0 <= i < |cart| ==> cart[i].price >= 0) ==> r >= 0 by {
        if Valid() && (forall i :: 0 <= i < |cart| ==> cart[i].price >= 0) {
          TotalNonNegative(cart);
        }
      }
      r
    }

    /** `itemCount`: the badge number, at least one per cart line. */
    function ItemCountOf(): (r: int)
      reads this
      ensures Valid() ==> r >= |cart|
    {
      var r := ItemCount(cart);
      assert Valid() ==> r >= |cart| by {
        if Valid() { ItemCountAtLeastLines(cart); }
      }
      r
    }
  }

  /** Filing the cancelled copy under a fresh id keeps the ids of the
      cancelled list distinct, and the fresh id differs from the old one. */
  lemma {:induction false} CancelKeepsIdsDistinct(orders: seq<Order>, cancelled: seq<Order>, o: Order,
                                                  newId: string, date: string)
    requires o in orders && newId !in OrderIds(orders) && newId !in OrderIds(cancelled)
    ensures newId != o.id
    ensures UniqueOrderIds(cancelled) ==> UniqueOrderIds(cancelled + [CancelledCopy(o, newId, date)])
  {
    OrderIdOf(orders, o);
    AppendFreshOrder(cancelled, CancelledCopy(o, newId, date));
  }

  /** The two `forEach` loops of `reorderItems`: copy the cart into a `Map`
      keyed by id, then add each reordered item's quantity to its key or
      insert the item. The result is the map's values in insertion order. */
  method BuildItemsMap(current: seq<CartItem>, items: seq<CartItem>) returns (itemsMap: seq<CartItem>)
    ensures itemsMap == Reordered(current, items)
  {
    itemsMap := CopyIntoMap(current);
    itemsMap := MergeIntoMap(itemsMap, items);
  }

  /** `cart.forEach(item => itemsMap.set(item.id, item))` on an empty map. */
  method CopyIntoMap(current: seq<CartItem>) returns (itemsMap: seq<CartItem>)
    ensures itemsMap == Dedup(current)
  {
    itemsMap := [];
    var i := 0;
    while i < |current|
      invariant 0 <= i <= |current|
      invariant itemsMap == Dedup(current[..i])
    {
      DedupSnoc(current, i);
      itemsMap := MapSet(itemsMap, current[i]);
      i := i + 1;
    }
    assert current[..i] == current;
  }

  /** `items.forEach(...)`: add the quantity to a present key, or set the
      item under its id. */
  method MergeIntoMap(start: seq<CartItem>, items: seq<CartItem>) returns (itemsMap: seq<CartItem>)
    ensures itemsMap == MergeAll(start, items)
  {
    itemsMap := start;
    var j := 0;
    while j < |items|
      invariant 0 <= j <= |items|
      invariant itemsMap == MergeAll(start, items[..j])
    {
      MergeAllSnoc(start, items, j);
      itemsMap := MergeItem(itemsMap, items[j]);
      j := j + 1;
    }
    assert items[..j] == items;
  }

  /** The callback of the second `forEach`: add the item's quantity to a
      present key, or set the item under its id. */
  method MergeItem(itemsMap: seq<CartItem>, item: CartItem) returns (next: seq<CartItem>)
    ensures next == MergeOne(itemsMap, item)
  {
    if MapHas(itemsMap, item.id) {
      var existingItem := MapGet(itemsMap, item.id);
      next := MapSet(itemsMap, existingItem.(quantity := existingItem.quantity + item.quantity));
    } else {
      next := MapSet(itemsMap, item);
    }
  }

  /** Adding the same product twice leaves one line of quantity 2, and the
      cart total counts it twice. */
  method AddTwiceScenario(a: Product)
    requires a.price == 100
  {
    var store := new CartProvider();
    store.AddToCart(a);
    store.AddToCart(a);
    AddTimesFromEmpty(a, 2);
    assert AddTimes([], a, 1) == AddItem([], a);
    assert store.cart == AddTimes([], a, 2);
    assert store.cart == [WithQuantity(a, 2)];
    assert Total(store.cart) == LineTotal(store.cart[0]) + Total(store.cart[1..]);
    assert store.cart[1..] == [];
    assert store.CartTotal() == 200;
  }

  /** Ordering one of two lines keeps the other in the cart; cancelling the
      order empties the active list and files one cancelled record. */
  method OrderScenario(a: Product, b: Product)
    requires a.id != b.id && a.price == 100
  {
    var store := new CartProvider();
    store.AddToCart(a);
    store.AddToCart(b);
    assert store.cart == [WithQuantity(a, 1), WithQuantity(b, 1)];
    var order := store.PlaceOrder([WithQuantity(a, 1)], "ORD-1", "d0", "TRK-1");
    assert order.total == 100;
    assert store.cart[0] == WithQuantity(b, 1) by {
      assert WithQuantity(b, 1) in store.cart;
    }
    assert |store.cart| <= 1 by {
      assert WithQuantity(a, 1) !in store.cart;
    }

    store.CancelOrder("ORD-1", "CANCEL-1", "d1");
    assert store.orders == [];
    assert |store.cancelledOrders| == 1 && store.cancelledOrders[0].status == Cancelled;
    assert store.cancelledOrders[0].id != order.id;
  }
}
