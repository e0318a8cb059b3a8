/** The cart page (app/cart/page.tsx): a selection of line ids kept beside the
    cart, the subset of lines and the subtotal it picks out, the select-all
    check box and the hand-off of the chosen lines to checkout. */
module CartPage {
  import opened Common
  import opened CartModel
  import opened CartLaws
  import opened CartContext

  // ------------------------------------------------------------ selection

  /** `toggleItemSelection` on the id set: take `id` out when present, put it
      in otherwise. */
  function Toggle(sel: set<string>, id: string): (r: set<string>)
    ensures id in r <==> id !in sel
    ensures forall x :: x != id ==> (x in r <==> x in sel)
  {
    if id in sel then sel - {id} else sel + {id}
  }

  /** Toggling the same id twice gives the selection back. */
  lemma {:induction false} ToggleTwice(sel: set<string>, id: string)
    ensures Toggle(Toggle(sel, id), id) == sel
  {
  }

  /** `new Set(cart.map(item => item.id))` */
  function CartIdSet(cart: seq<CartItem>): (r: set<string>)
    ensures forall id :: id in r <==> id in CartIds(cart)
  {
    set id | id in CartIds(cart)
  }

  /** A sequence without repeats has as many distinct elements as entries. */
  lemma {:induction false} DistinctSize(s: seq<string>)
    requires forall i, j :: 0 <= i < j < |s| ==> s[i] != s[j]
    ensures |set x | x in s| == |s|
  {
    if s != [] {
      DistinctSize(s[1..]);
      ElementsOfCons(s);
      assert s[0] !in s[1..] by {
        forall i | 0 <= i < |s[1..]| ensures s[1..][i] != s[0] {
          assert s[1..][i] == s[i + 1];
        }
      }
    }
  }

  lemma {:induction false} ElementsOfCons(s: seq<string>)
    requires s != []
    ensures (set x | x in s) == {s[0]} + (set x | x in s[1..])
  {
    assert s == [s[0]] + s[1..];
  }

  /** With distinct ids the id set has one element per line. */
  lemma {:induction false} CartIdSetSize(cart: seq<CartItem>)
    requires UniqueIds(cart)
    ensures |CartIdSet(cart)| == |cart|
  {
    var ids := CartIds(cart);
    assert forall i, j :: 0 <= i < j < |ids| ==> ids[i] != ids[j] by {
      forall i, j | 0 <= i < j < |ids| ensures ids[i] != ids[j] {
        assert ids[i] == cart[i].id && ids[j] == cart[j].id;
      }
    }
    DistinctSize(ids);
  }

  /** `getSelectedItems`: the lines whose id is selected, in cart order. */
  function SelectedOf(cart: seq<CartItem>, sel: set<string>): (r: seq<CartItem>)
    ensures forall c :: c in r <==> c in cart && c.id in sel
    ensures forall c :: multiset(r)[c] == if c.id in sel then multiset(cart)[c] else 0
    ensures IsSubsequence(r, cart)
  {
    FilterCounts(cart, (c: CartItem) => c.id in sel);
    Filter(cart, (c: CartItem) => c.id in sel)
  }

  /** The `reduce` of `calculateSelectedTotal`, from an accumulated `total`. */
  function SelectedTotalFrom(total: int, cart: seq<CartItem>, sel: set<string>): int
    decreases |cart|
  {
    if cart == [] then total
    else SelectedTotalFrom(if cart[0].id in sel then total + LineTotal(cart[0]) else total,
                           cart[1..], sel)
  }

  lemma {:induction false} SelectedOfCons(cart: seq<CartItem>, sel: set<string>)
    requires cart != []
    ensures SelectedOf(cart, sel) ==
      if cart[0].id in sel then [cart[0]] + SelectedOf(cart[1..], sel) else SelectedOf(cart[1..], sel)
  {
  }

  lemma {:induction false} TotalCons(c: CartItem, rest: seq<CartItem>)
    ensures Total([c] + rest) == LineTotal(c) + Total(rest)
  {
    assert ([c] + rest)[0] == c && ([c] + rest)[1..] == rest;
  }

  /** The fold adds the Σ price × quantity of the selected lines to its start. */
  lemma {:induction false} SelectedTotalFromIsTotal(total: int, cart: seq<CartItem>, sel: set<string>)
    ensures SelectedTotalFrom(total, cart, sel) == total + Total(SelectedOf(cart, sel))
    decreases |cart|
  {
    if cart != [] {
      var rest := SelectedOf(cart[1..], sel);
      SelectedOfCons(cart, sel);
      if cart[0].id in sel {
        var next := total + LineTotal(cart[0]);
        assert SelectedTotalFrom(total, cart, sel) == SelectedTotalFrom(next, cart[1..], sel);
        SelectedTotalFromIsTotal(next, cart[1..], sel);
        TotalCons(cart[0], rest);
        assert SelectedOf(cart, sel) == [cart[0]] + rest;
      } else {
        assert SelectedTotalFrom(total, cart, sel) == SelectedTotalFrom(total, cart[1..], sel);
        SelectedTotalFromIsTotal(total, cart[1..], sel);
        assert SelectedOf(cart, sel) == rest;
      }
    }
  }

  /** `calculateSelectedTotal`: Σ price × quantity over exactly the lines
      `getSelectedItems` returns. */
  function SelectedTotal(cart: seq<CartItem>, sel: set<string>): (r: int)
    ensures r == Total(SelectedOf(cart, sel))
  {
    SelectedTotalFromIsTotal(0, cart, sel);
    SelectedTotalFrom(0, cart, sel)
  }

  lemma {:induction false} LineTotalNonNegative(c: CartItem)
    requires c.price >= 0 && c.quantity >= 0
    ensures LineTotal(c) >= 0
  {
  }

  /** With no negative price or quantity, a subtotal never exceeds the cart
      total: the fold only ever skips non-negative terms. */
  lemma {:induction false} SelectedTotalFromBound(total: int, cart: seq<CartItem>, sel: set<string>)
    requires forall i :: 0 <= i < |cart| ==> cart[i].price >= 0 && cart[i].quantity >= 0
    ensures SelectedTotalFrom(total, cart, sel) <= total + Total(cart)
    decreases |cart|
  {
    if cart != [] {
      LineTotalNonNegative(cart[0]);
      var next := if cart[0].id in sel then total + LineTotal(cart[0]) else total;
      SelectedTotalFromBound(next, cart[1..], sel);
    }
  }

  lemma {:induction false} SelectedTotalBound(cart: seq<CartItem>, sel: set<string>)
    requires forall i :: 0 <= i < |cart| ==> cart[i].price >= 0 && cart[i].quantity >= 0
    ensures SelectedTotal(cart, sel) <= Total(cart)
  {
    SelectedTotalFromBound(0, cart, sel);
  }

  /** Selecting every id picks the whole cart; selecting none picks nothing. */
  lemma {:induction false} SelectEverythingOrNothing(cart: seq<CartItem>)
    ensures SelectedOf(cart, CartIdSet(cart)) == cart
    ensures SelectedOf(cart, {}) == []
    ensures SelectedTotal(cart, CartIdSet(cart)) == Total(cart)
  {
    forall i | 0 <= i < |cart| ensures cart[i].id in CartIdSet(cart) {
      assert CartIds(cart)[i] == cart[i].id;
    }
    FilterAllKept(cart, (c: CartItem) => c.id in CartIdSet(cart));
  }

  // ------------------------------------------------------------ select-all flag

  /** The flag `toggleItemSelection` stores, as written: the selection has as
      many ids as the cart has lines. */
  function SelectAllFlagAsWritten(cart: seq<CartItem>, sel: set<string>): bool
  {
    |sel| == |cart|
  }

  /** The flag the check box is meant to show: every line is selected. */
  function AllSelected(cart: seq<CartItem>, sel: set<string>): (r: bool)
    ensures r <==> SelectedOf(cart, sel) == cart
  {
    var r := forall i :: 0 <= i < |cart| ==> cart[i].id in sel;
    if r then
      FilterAllKept(cart, (c: CartItem) => c.id in sel);
      r
    else
      assert SelectedOf(cart, sel) != cart by {
        var i :| 0 <= i < |cart| && cart[i].id !in sel;
        assert cart[i] in cart && cart[i] !in SelectedOf(cart, sel);
      }
      r
  }

  /** A removed line's id stays in the selection: with lines `a`, `b` and a
      stale id `c` selected, ticking `a` sets the flag although `b` is not
      selected. */
  lemma {:induction false} SelectAllFlagAsWrittenWrong(a: CartItem, b: CartItem, c: string)
    requires a.id != b.id && a.id != c && b.id != c
    ensures var sel := Toggle({c}, a.id);
            SelectAllFlagAsWritten([a, b], sel) && !AllSelected([a, b], sel)
  {
  }

  /** Every line is selected exactly when the cart's id set is. */
  lemma {:induction false} AllSelectedIds(cart: seq<CartItem>, sel: set<string>)
    ensures AllSelected(cart, sel) <==> CartIdSet(cart) <= sel
  {
  }

  lemma {:induction false} SubsetSize(a: set<string>, b: set<string>)
    requires a <= b
    ensures |a| <= |b|
    ensures |a| == |b| ==> a == b
  {
    assert a + b == b && a * b == a && a - b == {};
    assert |b - a| + |a| == |b|;
    if |a| == |b| {
      assert b - a == {};
      assert b <= a;
    }
  }

  /** When every selected id is a line of a cart with distinct ids, the
      written flag and the intended one agree. */
  lemma {:induction false} FlagAgreesWithoutStaleIds(cart: seq<CartItem>, sel: set<string>)
    requires UniqueIds(cart) && sel <= CartIdSet(cart)
    ensures SelectAllFlagAsWritten(cart, sel) <==> AllSelected(cart, sel)
  {
    var ids := CartIdSet(cart);
    CartIdSetSize(cart);
    AllSelectedIds(cart, sel);
    SubsetSize(sel, ids);
    if |sel| == |cart| {
      assert sel == ids;
      assert ids <= sel;
    }
    if ids <= sel {
      assert sel == ids;
    }
  }

  // ------------------------------------------------------------ checkout

  /** `handleCheckout` as written: no hand-off when the id set is empty,
      otherwise the selected lines. */
  function CheckoutAsWritten(cart: seq<CartItem>, sel: set<string>): Option<seq<CartItem>>
  {
    if |sel| == 0 then None else Some(SelectedOf(cart, sel))
  }

  /** A removed line's id keeps the written guard open and an empty list is
      handed to checkout. */
  lemma {:induction false} CheckoutAsWrittenHandsOffNothing(b: CartItem, stale: string)
    requires b.id != stale
    ensures CheckoutAsWritten([b], {stale}) == Some([])
  {
    assert b !in SelectedOf([b], {stale});
  }

  /** The intended guard: no hand-off exactly when no line is selected; the
      hand-off is then the selected lines, never empty. */
  function Checkout(cart: seq<CartItem>, sel: set<string>): (r: Option<seq<CartItem>>)
    ensures r.None? <==> forall i :: 0 <= i < |cart| ==> cart[i].id !in sel
    ensures r.Some? ==> r.value == SelectedOf(cart, sel) && r.value != []
  {
    var chosen := SelectedOf(cart, sel);
    if chosen == [] then
      assert forall i :: 0 <= i < |cart| ==> cart[i].id !in sel by {
        forall i | 0 <= i < |cart| ensures cart[i].id !in sel {
          assert cart[i] in cart && cart[i] !in chosen;
        }
      }
      None
    else
      Some(chosen)
  }

  /** Without stale ids, the written guard and the intended one agree. */
  lemma {:induction false} CheckoutAgreesWithoutStaleIds(cart: seq<CartItem>, sel: set<string>)
    requires sel <= CartIdSet(cart)
    ensures CheckoutAsWritten(cart, sel) == Checkout(cart, sel)
  {
  }

  // ------------------------------------------------------------ quantity controls

  /** The decrement button of a line with quantity above 1 lowers that line by
      one: the item count drops by one and the total by the line's price. */
  lemma {:induction false} DecrementAggregates(cart: seq<CartItem>, k: nat)
    requires UniqueIds(cart) && k < |cart| && cart[k].quantity > 1
    ensures var r := SetQuantity(cart, cart[k].id, cart[k].quantity - 1);
            && r == cart[k := cart[k].(quantity := cart[k].quantity - 1)]
            && (Positive(cart) ==> Positive(r))
            && ItemCount(r) == ItemCount(cart) - 1
            && Total(r) == Total(cart) - cart[k].price
  {
    var e := cart[k].(quantity := cart[k].quantity - 1);
    var r := SetQuantity(cart, cart[k].id, cart[k].quantity - 1);
    assert r == cart[k := e];
    ItemCountUpdate(cart, k, e);
    TotalUpdate(cart, k, e);
    LineTotalOneLess(cart[k]);
  }

  lemma {:induction false} LineTotalOneLess(c: CartItem)
    ensures LineTotal(c.(quantity := c.quantity - 1)) == LineTotal(c) - c.price
  {
    assert c.price * (c.quantity - 1) == c.price * c.quantity - c.price;
  }

  /** The increment button raises that line by one. */
  lemma {:induction false} IncrementAggregates(cart: seq<CartItem>, k: nat)
    requires UniqueIds(cart) && k < |cart| && cart[k].quantity >= 1
    ensures var r := SetQuantity(cart, cart[k].id, cart[k].quantity + 1);
            && r == cart[k := cart[k].(quantity := cart[k].quantity + 1)]
            && ItemCount(r) == ItemCount(cart) + 1
            && Total(r) == Total(cart) + cart[k].price
  {
    var e := cart[k].(quantity := cart[k].quantity + 1);
    var r := SetQuantity(cart, cart[k].id, cart[k].quantity + 1);
    assert r == cart[k := e];
    ItemCountUpdate(cart, k, e);
    TotalUpdate(cart, k, e);
    LineTotalOneMore(cart[k]);
  }

  // ------------------------------------------------------------ the page

  /** The page's state: the shared cart provider and the two `useState`
      fields. */
  class Page {
    const store: CartProvider
    var selectedItems: set<string>
    var selectAll: bool

    constructor (store: CartProvider)
      ensures this.store == store && selectedItems == {} && !selectAll
    {
      this.store := store;
      selectedItems := {};
      selectAll := false;
    }

    /** `toggleItemSelection`: copy the set, flip `itemId` in the copy, store
        it, and recompute the check box (with the corrected flag). */
    method ToggleItemSelection(itemId: string)
      modifies this
      ensures selectedItems == Toggle(old(selectedItems), itemId)
      ensures selectAll <==> SelectedOf(store.cart, selectedItems) == store.cart
    {
      var newSelectedItems := selectedItems;
      if itemId in newSelectedItems {
        newSelectedItems := newSelectedItems - {itemId};
      } else {
        newSelectedItems := newSelectedItems + {itemId};
      }
      selectedItems := newSelectedItems;
      selectAll := AllSelected(store.cart, newSelectedItems);
    }

    /** `toggleSelectAll`: clear the selection when the box was ticked, select
        every line otherwise; the box flips either way. */
    method ToggleSelectAll()
      modifies this
      ensures old(selectAll) ==> selectedItems == {}
      ensures !old(selectAll) ==> selectedItems == CartIdSet(store.cart)
      ensures selectAll == !old(selectAll)
    {
      if selectAll {
        selectedItems := {};
      } else {
        selectedItems := CartIdSet(store.cart);
      }
      selectAll := !selectAll;
    }

    /** `getSelectedItems` */
    function GetSelectedItems(): (r: seq<CartItem>)
      reads this, store
      ensures forall c :: c in r <==> c in store.cart && c.id in selectedItems
      ensures forall c :: multiset(r)[c] == if c.id in selectedItems then multiset(store.cart)[c] else 0
      ensures IsSubsequence(r, store.cart)
    {
      SelectedOf(store.cart, selectedItems)
    }

    /** `calculateSelectedTotal` */
    function CalculateSelectedTotal(): (r: int)
      reads this, store
      ensures r == Total(GetSelectedItems())
    {
      SelectedTotal(store.cart, selectedItems)
    }

    /** `handleCheckout`: the list handed to the checkout page, or nothing
        (with the corrected guard). */
    method HandleCheckout() returns (handoff: Option<seq<CartItem>>)
      ensures handoff.None? <==> forall i :: 0 <= i < |store.cart| ==> store.cart[i].id !in selectedItems
      ensures handoff.Some? ==> handoff.value == GetSelectedItems() && handoff.value != []
    {
      handoff := Checkout(store.cart, selectedItems);
    }

    /** The remove button: the line leaves the cart; the selection keeps its id. */
    method RemoveLine(id: string)
      modifies store
      ensures store.cart == RemoveItem(old(store.cart), id)
      ensures store.orders == old(store.orders) && store.cancelledOrders == old(store.cancelledOrders)
      ensures selectedItems == old(selectedItems) && selectAll == old(selectAll)
    {
      store.RemoveFromCart(id);
    }

    /** The decrement button, disabled while the quantity is 1 or less: it
        never takes a line out of the cart. */
    method DecreaseQuantity(item: CartItem)
      modifies store
      ensures item.quantity <= 1 ==> store.cart == old(store.cart)
      ensures item.quantity > 1 ==> store.cart == SetQuantity(old(store.cart), item.id, item.quantity - 1)
      ensures |store.cart| == |old(store.cart)|
      ensures Positive(old(store.cart)) ==> Positive(store.cart)
      ensures store.orders == old(store.orders) && store.cancelledOrders == old(store.cancelledOrders)
    {
      if item.quantity > 1 {
        store.UpdateQuantity(item.id, item.quantity - 1);
      }
    }

    /** The increment button. */
    method IncreaseQuantity(item: CartItem)
      modifies store
      ensures store.cart == SetQuantity(old(store.cart), item.id, item.quantity + 1)
      ensures item.quantity >= 0 ==> |store.cart| == |old(store.cart)|
      ensures store.orders == old(store.orders) && store.cancelledOrders == old(store.cancelledOrders)
    {
      store.UpdateQuantity(item.id, item.quantity + 1);
    }
  }
}
