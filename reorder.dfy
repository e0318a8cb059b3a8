/** `reorderItems` (app/context/CartContext.tsx): the cart and the reordered
    items are poured into a JavaScript `Map` keyed by id, whose iteration order
    is the order in which keys were first set. The map is modelled as a
    sequence of entries with distinct ids. */
module Reorder {
  import opened Common
  import opened CartModel
  import opened CartLaws

  /** Position of the first entry with this id. */
  function IndexOf(m: seq<CartItem>, id: string): (r: Option<nat>)
    ensures r.None? <==> id !in CartIds(m)
    ensures r.Some? ==> r.value < |m| && m[r.value].id == id &&
                        forall k :: 0 <= k < r.value ==> m[k].id != id
  {
    if m == [] then None
    else if m[0].id == id then Some(0)
    else
      match IndexOf(m[1..], id)
      case None => None
      case Some(k) =>
        assert forall j :: 0 < j <= k ==> m[j] == m[1..][j - 1];
        Some(k + 1)
  }

  /** `map.has(id)` */
  predicate MapHas(m: seq<CartItem>, id: string)
  {
    IndexOf(m, id).Some?
  }

  /** `map.get(id)` of a present key. */
  function MapGet(m: seq<CartItem>, id: string): (r: CartItem)
    requires MapHas(m, id)
    ensures r in m && r.id == id
  {
    m[IndexOf(m, id).value]
  }

  /** `map.set(e.id, e)`: overwrite in place when the key is present, otherwise
      add it at the end. */
  function MapSet(m: seq<CartItem>, e: CartItem): seq<CartItem>
  {
    match IndexOf(m, e.id)
    case Some(k) => m[k := e]
    case None => m + [e]
  }

  /** What `set` promises: keys stay distinct, the entry is stored and nothing
      else is added, a present key keeps the size and an absent one is
      appended, and the other entries stay where they were. */
  lemma {:induction false} MapSetFacts(m: seq<CartItem>, e: CartItem)
    ensures var r := MapSet(m, e);
            && (UniqueIds(m) ==> UniqueIds(r))
            && e in r && (forall x :: x in r ==> x == e || x in m)
            && (MapHas(m, e.id) ==> |r| == |m|)
            && (!MapHas(m, e.id) ==> r == m + [e])
            && (forall i :: 0 <= i < |m| && m[i].id != e.id ==> r[i] == m[i])
  {
    match IndexOf(m, e.id)
    case Some(k) =>
      var r := m[k := e];
      assert r[k] == e;
      forall x | x in r ensures x == e || x in m {
        var i :| 0 <= i < |r| && r[i] == x;
        if i != k { assert m[i] == x; }
      }
      if UniqueIds(m) {
        assert forall i :: 0 <= i < |m| ==> r[i].id == m[i].id;
      }
    case None =>
  }

  /** The first `forEach`: the cart copied into the map. Later lines with an
      id already seen overwrite the earlier value in the earlier position. */
  function Dedup(cart: seq<CartItem>): seq<CartItem>
  {
    if cart == [] then [] else MapSet(Dedup(cart[..|cart| - 1]), cart[|cart| - 1])
  }

  /** The entry one step of the second `forEach` sets under `x.id`: the
      present entry with the incoming quantity added, or the incoming item. */
  function MergedEntry(m: seq<CartItem>, x: CartItem): CartItem
  {
    if MapHas(m, x.id) then
      var existing := MapGet(m, x.id);
      existing.(quantity := existing.quantity + x.quantity)
    else
      x
  }

  /** One step of the second `forEach`: `map.set` of that entry. */
  function MergeOne(m: seq<CartItem>, x: CartItem): seq<CartItem>
  {
    MapSet(m, MergedEntry(m, x))
  }

  /** The second `forEach`, over all incoming items in order. */
  function MergeAll(m: seq<CartItem>, items: seq<CartItem>): seq<CartItem>
  {
    if items == [] then m else MergeOne(MergeAll(m, items[..|items| - 1]), items[|items| - 1])
  }

  /** The cart `reorderItems` stores: `Array.from(itemsMap.values())`. */
  function Reordered(cart: seq<CartItem>, items: seq<CartItem>): seq<CartItem>
  {
    MergeAll(Dedup(cart), items)
  }

  // ------------------------------------------------------------ reference

  /** Σ of the quantities of the items with this id. */
  function QtySum(items: seq<CartItem>, id: string): int
  {
    if items == [] then 0
    else QtySum(items[..|items| - 1], id) + (if items[|items| - 1].id == id then items[|items| - 1].quantity else 0)
  }

  /** Index of the first item with this id (|items| when there is none). */
  function FirstIndex(items: seq<CartItem>, id: string): nat
  {
    match IndexOf(items, id)
    case Some(k) => k
    case None => |items|
  }

  /** `e` is the entry an id first seen among `items` ends up as: the fields of
      its first occurrence with the quantities of all its occurrences. */
  ghost predicate FromItems(items: seq<CartItem>, e: CartItem)
  {
    && e.id in CartIds(items)
    && e == items[FirstIndex(items, e.id)].(quantity := QtySum(items, e.id))
  }

  /** Existing entries keep their position and gain every incoming quantity. */
  ghost predicate KeepsExisting(m: seq<CartItem>, items: seq<CartItem>, r: seq<CartItem>)
  {
    |m| <= |r| &&
    forall i :: 0 <= i < |m| ==> r[i] == m[i].(quantity := m[i].quantity + QtySum(items, m[i].id))
  }

  /** The remaining entries are ids not in `m`, built from their first occurrence. */
  ghost predicate AppendsNew(m: seq<CartItem>, items: seq<CartItem>, r: seq<CartItem>)
  {
    forall i :: |m| <= i < |r| ==> r[i].id !in CartIds(m) && FromItems(items, r[i])
  }

  /** ... appended in the order of their first occurrence. */
  ghost predicate FirstOccurrenceOrder(m: seq<CartItem>, items: seq<CartItem>, r: seq<CartItem>)
  {
    forall i, j :: |m| <= i < j < |r| ==> FirstIndex(items, r[i].id) < FirstIndex(items, r[j].id)
  }

  /** No incoming id is lost. */
  ghost predicate Covers(items: seq<CartItem>, r: seq<CartItem>)
  {
    forall id :: id in CartIds(items) ==> id in CartIds(r)
  }

  /** Declarative description of merging `items` into a map `m` with distinct ids. */
  ghost predicate MergedFrom(m: seq<CartItem>, items: seq<CartItem>, r: seq<CartItem>)
  {
    && UniqueIds(r)
    && KeepsExisting(m, items, r)
    && AppendsNew(m, items, r)
    && FirstOccurrenceOrder(m, items, r)
    && Covers(items, r)
  }

  // ------------------------------------------------------------ helper facts

  lemma {:induction false} QtySumAbsent(items: seq<CartItem>, id: string)
    requires id !in CartIds(items)
    ensures QtySum(items, id) == 0
  {
    if items != [] {
      var pre := items[..|items| - 1];
      assert forall i :: 0 <= i < |pre| ==> CartIds(pre)[i] == CartIds(items)[i];
      QtySumAbsent(pre, id);
    }
  }

  lemma {:induction false} QtySumSnoc(pre: seq<CartItem>, x: CartItem, id: string)
    ensures QtySum(pre + [x], id) == QtySum(pre, id) + (if x.id == id then x.quantity else 0)
  {
    assert (pre + [x])[..|pre|] == pre;
  }

  lemma {:induction false} IdsSnoc(pre: seq<CartItem>, x: CartItem)
    ensures CartIds(pre + [x]) == CartIds(pre) + [x.id]
  {
  }

  lemma {:induction false} FirstIndexSnocOld(pre: seq<CartItem>, x: CartItem, id: string)
    requires id in CartIds(pre)
    ensures FirstIndex(pre + [x], id) == FirstIndex(pre, id) < |pre|
    ensures (pre + [x])[FirstIndex(pre + [x], id)] == pre[FirstIndex(pre, id)]
  {
    var items := pre + [x];
    assert forall i :: 0 <= i < |pre| ==> items[i] == pre[i];
    var k := IndexOf(pre, id).value;
    assert CartIds(items)[k] == id;
  }

  lemma {:induction false} FirstIndexSnocNew(pre: seq<CartItem>, x: CartItem)
    requires x.id !in CartIds(pre)
    ensures FirstIndex(pre + [x], x.id) == |pre|
  {
    var items := pre + [x];
    assert CartIds(items)[|pre|] == x.id;
    assert forall i :: 0 <= i < |pre| ==> items[i].id == pre[i].id != x.id;
  }

  lemma {:induction false} SameIds(a: seq<CartItem>, b: seq<CartItem>)
    requires |a| == |b| && forall i :: 0 <= i < |a| ==> a[i].id == b[i].id
    ensures CartIds(a) == CartIds(b)
  {
  }

  // ------------------------------------------------------------ present key

  lemma {:induction false} PresentKeeps(m: seq<CartItem>, pre: seq<CartItem>, x: CartItem,
                                        mm: seq<CartItem>, k: nat)
    requires UniqueIds(mm) && k < |mm| && mm[k].id == x.id && KeepsExisting(m, pre, mm)
    ensures KeepsExisting(m, pre + [x], mm[k := mm[k].(quantity := mm[k].quantity + x.quantity)])
  {
    var r := mm[k := mm[k].(quantity := mm[k].quantity + x.quantity)];
    forall i | 0 <= i < |m|
      ensures r[i] == m[i].(quantity := m[i].quantity + QtySum(pre + [x], m[i].id))
    {
      QtySumSnoc(pre, x, m[i].id);
      if i != k { assert mm[i].id != mm[k].id; }
    }
  }

  lemma {:induction false} PresentAppends(m: seq<CartItem>, pre: seq<CartItem>, x: CartItem,
                                          mm: seq<CartItem>, k: nat)
    requires UniqueIds(mm) && k < |mm| && mm[k].id == x.id && AppendsNew(m, pre, mm)
    ensures AppendsNew(m, pre + [x], mm[k := mm[k].(quantity := mm[k].quantity + x.quantity)])
  {
    var r := mm[k := mm[k].(quantity := mm[k].quantity + x.quantity)];
    IdsSnoc(pre, x);
    forall i | |m| <= i < |r| ensures r[i].id !in CartIds(m) && FromItems(pre + [x], r[i]) {
      assert FromItems(pre, mm[i]);
      QtySumSnoc(pre, x, mm[i].id);
      FirstIndexSnocOld(pre, x, mm[i].id);
      if i != k { assert mm[i].id != mm[k].id; }
    }
  }

  lemma {:induction false} PresentOrder(m: seq<CartItem>, pre: seq<CartItem>, x: CartItem,
                                        mm: seq<CartItem>, k: nat)
    requires k < |mm| && mm[k].id == x.id && AppendsNew(m, pre, mm) && FirstOccurrenceOrder(m, pre, mm)
    ensures FirstOccurrenceOrder(m, pre + [x], mm[k := mm[k].(quantity := mm[k].quantity + x.quantity)])
  {
    var r := mm[k := mm[k].(quantity := mm[k].quantity + x.quantity)];
    forall i, j | |m| <= i < j < |r|
      ensures FirstIndex(pre + [x], r[i].id) < FirstIndex(pre + [x], r[j].id)
    {
      assert FromItems(pre, mm[i]) && FromItems(pre, mm[j]);
      FirstIndexSnocOld(pre, x, mm[i].id);
      FirstIndexSnocOld(pre, x, mm[j].id);
    }
  }

  /** Merging into a present key preserves the description. */
  lemma {:induction false} MergePresentStep(m: seq<CartItem>, pre: seq<CartItem>, x: CartItem, mm: seq<CartItem>)
    requires MergedFrom(m, pre, mm) && MapHas(mm, x.id)
    ensures MergedFrom(m, pre + [x], MergeOne(mm, x))
  {
    var k := IndexOf(mm, x.id).value;
    assert MergedEntry(mm, x) == mm[k].(quantity := mm[k].quantity + x.quantity);
    PresentUpdate(m, pre, x, mm, k);
  }

  lemma {:induction false} PresentUpdate(m: seq<CartItem>, pre: seq<CartItem>, x: CartItem, mm: seq<CartItem>, k: nat)
    requires MergedFrom(m, pre, mm) && k < |mm| && mm[k].id == x.id
    ensures MergedFrom(m, pre + [x], mm[k := mm[k].(quantity := mm[k].quantity + x.quantity)])
  {
    var r := mm[k := mm[k].(quantity := mm[k].quantity + x.quantity)];
    SameIds(r, mm);
    PresentKeeps(m, pre, x, mm, k);
    PresentAppends(m, pre, x, mm, k);
    PresentOrder(m, pre, x, mm, k);
    IdsSnoc(pre, x);
    assert CartIds(r)[k] == x.id;
  }

  // ------------------------------------------------------------ new key

  lemma {:induction false} AbsentKeeps(m: seq<CartItem>, pre: seq<CartItem>, x: CartItem, mm: seq<CartItem>)
    requires KeepsExisting(m, pre, mm) && x.id !in CartIds(mm)
    ensures KeepsExisting(m, pre + [x], mm + [x])
  {
    forall i | 0 <= i < |m|
      ensures (mm + [x])[i] == m[i].(quantity := m[i].quantity + QtySum(pre + [x], m[i].id))
    {
      QtySumSnoc(pre, x, m[i].id);
      assert CartIds(mm)[i] == m[i].id;
    }
  }

  lemma {:induction false} AbsentAppends(m: seq<CartItem>, pre: seq<CartItem>, x: CartItem, mm: seq<CartItem>)
    requires KeepsExisting(m, pre, mm) && AppendsNew(m, pre, mm) && Covers(pre, mm)
    requires x.id !in CartIds(mm)
    ensures AppendsNew(m, pre + [x], mm + [x])
  {
    var r := mm + [x];
    IdsSnoc(pre, x);
    assert forall i :: 0 <= i < |m| ==> CartIds(mm)[i] == m[i].id;
    forall i | |m| <= i < |r| ensures r[i].id !in CartIds(m) && FromItems(pre + [x], r[i]) {
      if i < |mm| {
        assert FromItems(pre, mm[i]);
        assert CartIds(mm)[i] == mm[i].id;
        QtySumSnoc(pre, x, mm[i].id);
        FirstIndexSnocOld(pre, x, mm[i].id);
      } else {
        QtySumSnoc(pre, x, x.id);
        QtySumAbsent(pre, x.id);
        FirstIndexSnocNew(pre, x);
      }
    }
  }

  lemma {:induction false} AbsentOrder(m: seq<CartItem>, pre: seq<CartItem>, x: CartItem, mm: seq<CartItem>)
    requires AppendsNew(m, pre, mm) && FirstOccurrenceOrder(m, pre, mm) && Covers(pre, mm)
    requires x.id !in CartIds(mm)
    ensures FirstOccurrenceOrder(m, pre + [x], mm + [x])
  {
    var r := mm + [x];
    FirstIndexSnocNew(pre, x);
    forall i, j | |m| <= i < j < |r|
      ensures FirstIndex(pre + [x], r[i].id) < FirstIndex(pre + [x], r[j].id)
    {
      assert FromItems(pre, mm[i]);
      FirstIndexSnocOld(pre, x, mm[i].id);
      if j < |mm| {
        assert FromItems(pre, mm[j]);
        FirstIndexSnocOld(pre, x, mm[j].id);
      }
    }
  }

  /** Merging a new key preserves the description. */
  lemma {:induction false} MergeAbsentStep(m: seq<CartItem>, pre: seq<CartItem>, x: CartItem, mm: seq<CartItem>)
    requires MergedFrom(m, pre, mm) && !MapHas(mm, x.id)
    ensures MergedFrom(m, pre + [x], MergeOne(mm, x))
  {
    var r := MergeOne(mm, x);
    assert r == mm + [x];
    AbsentKeeps(m, pre, x, mm);
    AbsentAppends(m, pre, x, mm);
    AbsentOrder(m, pre, x, mm);
    IdsSnoc(pre, x);
    IdsSnoc(mm, x);
  }

  // ------------------------------------------------------------ the laws

  /** Merging any items into a map with distinct ids is described by
      MergedFrom. */
  lemma {:induction false} MergeAllDescribed(m: seq<CartItem>, items: seq<CartItem>)
    requires UniqueIds(m)
    ensures MergedFrom(m, items, MergeAll(m, items))
  {
    if items == [] {
      assert forall i :: 0 <= i < |m| ==> m[i] == m[i].(quantity := m[i].quantity + QtySum(items, m[i].id));
    } else {
      var pre, x := items[..|items| - 1], items[|items| - 1];
      assert items == pre + [x];
      MergeAllDescribed(m, pre);
      var mm := MergeAll(m, pre);
      if MapHas(mm, x.id) {
        MergePresentStep(m, pre, x, mm);
      } else {
        MergeAbsentStep(m, pre, x, mm);
      }
    }
  }

  /** Copying a cart with distinct ids into the map gives the cart back. */
  lemma {:induction false} DedupOfUnique(cart: seq<CartItem>)
    requires UniqueIds(cart)
    ensures Dedup(cart) == cart
  {
    if cart != [] {
      var pre, x := cart[..|cart| - 1], cart[|cart| - 1];
      assert cart == pre + [x];
      DedupOfUnique(pre);
      assert forall i :: 0 <= i < |pre| ==> pre[i].id != x.id;
      assert !MapHas(pre, x.id);
    }
  }

  /** `reorderItems` on a cart with distinct ids: existing lines keep their
      position and gain all incoming quantities of their id; ids not in the
      cart are appended once each, in first-occurrence order, with the fields
      of their first occurrence and the sum of their quantities; no id is lost
      and ids stay distinct. */
  lemma {:induction false} ReorderedDescribed(cart: seq<CartItem>, items: seq<CartItem>)
    requires UniqueIds(cart)
    ensures MergedFrom(cart, items, Reordered(cart, items))
  {
    DedupOfUnique(cart);
    MergeAllDescribed(cart, items);
  }

  lemma {:induction false} DedupUnique(cart: seq<CartItem>)
    ensures UniqueIds(Dedup(cart))
  {
    if cart != [] {
      DedupUnique(cart[..|cart| - 1]);
    }
  }

  lemma {:induction false} MergeAllUnique(m: seq<CartItem>, items: seq<CartItem>)
    requires UniqueIds(m)
    ensures UniqueIds(MergeAll(m, items))
  {
    if items != [] {
      MergeAllUnique(m, items[..|items| - 1]);
    }
  }

  /** Whatever the cart held, the reordered cart has distinct ids (they are
      the keys of a Map). */
  lemma {:induction false} ReorderedUnique(cart: seq<CartItem>, items: seq<CartItem>)
    ensures UniqueIds(Reordered(cart, items))
  {
    DedupUnique(cart);
    MergeAllUnique(Dedup(cart), items);
  }

  /** The two shapes of one merge step. */
  lemma {:induction false} MergeOneShape(mm: seq<CartItem>, x: CartItem)
    ensures MapHas(mm, x.id) ==>
      var k := IndexOf(mm, x.id).value;
      MergeOne(mm, x) == mm[k := mm[k].(quantity := mm[k].quantity + x.quantity)]
    ensures !MapHas(mm, x.id) ==> MergeOne(mm, x) == mm + [x]
  {
  }

  /** `set` changes `itemCount` by the new entry's quantity, less that of
      the entry it overwrites. */
  lemma {:induction false} MapSetItemCount(m: seq<CartItem>, e: CartItem)
    ensures MapHas(m, e.id) ==> ItemCount(MapSet(m, e)) == ItemCount(m) - MapGet(m, e.id).quantity + e.quantity
    ensures !MapHas(m, e.id) ==> ItemCount(MapSet(m, e)) == ItemCount(m) + e.quantity
  {
    match IndexOf(m, e.id)
    case Some(k) => ItemCountUpdate(m, k, e);
    case None =>
      ItemCountAppend(m, [e]);
      assert ItemCount([e]) == e.quantity;
  }

  lemma {:induction false} MergeOneItemCount(mm: seq<CartItem>, x: CartItem)
    ensures ItemCount(MergeOne(mm, x)) == ItemCount(mm) + x.quantity
  {
    MapSetItemCount(mm, MergedEntry(mm, x));
  }

  /** Each merge step adds exactly the incoming quantity to `itemCount`. */
  lemma {:induction false} MergeAllItemCount(m: seq<CartItem>, items: seq<CartItem>)
    ensures ItemCount(MergeAll(m, items)) == ItemCount(m) + ItemCount(items)
  {
    if items != [] {
      var pre, x := items[..|items| - 1], items[|items| - 1];
      assert items == pre + [x];
      MergeAllItemCount(m, pre);
      MergeOneItemCount(MergeAll(m, pre), x);
      ItemCountAppend(pre, [x]);
    }
  }

  /** On a cart with distinct ids, `itemCount` after `reorderItems` is the old
      count plus the quantities of all reordered items. */
  lemma {:induction false} ReorderedItemCount(cart: seq<CartItem>, items: seq<CartItem>)
    requires UniqueIds(cart)
    ensures ItemCount(Reordered(cart, items)) == ItemCount(cart) + ItemCount(items)
  {
    DedupOfUnique(cart);
    MergeAllItemCount(cart, items);
  }

  /** Every line carries the price that `price` assigns to its id. */
  ghost predicate PricedBy(s: seq<CartItem>, price: string -> int)
  {
    forall i :: 0 <= i < |s| ==> s[i].price == price(s[i].id)
  }

  lemma {:induction false} LineTotalAdd(c: CartItem, q: int)
    ensures LineTotal(c.(quantity := c.quantity + q)) == LineTotal(c) + c.price * q
  {
    assert c.price * (c.quantity + q) == c.price * c.quantity + c.price * q;
  }

  lemma {:induction false} MergeOnePriced(mm: seq<CartItem>, x: CartItem, price: string -> int)
    requires PricedBy(mm, price) && x.price == price(x.id)
    ensures PricedBy(MergeOne(mm, x), price)
  {
  }

  /** `set` changes `cartTotal` by the new entry's line total, less that of
      the entry it overwrites. */
  lemma {:induction false} MapSetTotal(m: seq<CartItem>, e: CartItem)
    ensures MapHas(m, e.id) ==> Total(MapSet(m, e)) == Total(m) - LineTotal(MapGet(m, e.id)) + LineTotal(e)
    ensures !MapHas(m, e.id) ==> Total(MapSet(m, e)) == Total(m) + LineTotal(e)
  {
    match IndexOf(m, e.id)
    case Some(k) => TotalUpdate(m, k, e);
    case None =>
      TotalAppend(m, [e]);
      assert Total([e]) == LineTotal(e);
  }

  lemma {:induction false} MergeOneTotal(mm: seq<CartItem>, x: CartItem, price: string -> int)
    requires PricedBy(mm, price) && x.price == price(x.id)
    ensures Total(MergeOne(mm, x)) == Total(mm) + LineTotal(x)
  {
    MapSetTotal(mm, MergedEntry(mm, x));
    if MapHas(mm, x.id) {
      var cur := MapGet(mm, x.id);
      assert cur == mm[IndexOf(mm, x.id).value];
      LineTotalAdd(cur, x.quantity);
    }
  }

  lemma {:induction false} MergeAllTotal(m: seq<CartItem>, items: seq<CartItem>, price: string -> int)
    requires PricedBy(m, price) && PricedBy(items, price)
    ensures PricedBy(MergeAll(m, items), price)
    ensures Total(MergeAll(m, items)) == Total(m) + Total(items)
  {
    if items != [] {
      var pre, x := items[..|items| - 1], items[|items| - 1];
      assert items == pre + [x];
      assert PricedBy(pre, price);
      MergeAllTotal(m, pre, price);
      MergeOnePriced(MergeAll(m, pre), x, price);
      MergeOneTotal(MergeAll(m, pre), x, price);
      TotalAppend(pre, [x]);
      assert Total([x]) == LineTotal(x);
    }
  }

  /** When every line with the same id has the same price, `cartTotal` after
      `reorderItems` on a cart with distinct ids is the old total plus the
      total of the reordered items. */
  lemma {:induction false} ReorderedTotal(cart: seq<CartItem>, items: seq<CartItem>, price: string -> int)
    requires UniqueIds(cart) && PricedBy(cart, price) && PricedBy(items, price)
    ensures Total(Reordered(cart, items)) == Total(cart) + Total(items)
  {
    DedupOfUnique(cart);
    MergeAllTotal(cart, items, price);
  }

  lemma {:induction false} DedupPositive(cart: seq<CartItem>)
    requires Positive(cart)
    ensures Positive(Dedup(cart))
  {
    if cart != [] {
      var pre := cart[..|cart| - 1];
      assert Positive(pre);
      DedupPositive(pre);
    }
  }

  lemma {:induction false} MergeAllPositive(m: seq<CartItem>, items: seq<CartItem>)
    requires Positive(m) && Positive(items)
    ensures Positive(MergeAll(m, items))
  {
    if items != [] {
      var pre := items[..|items| - 1];
      assert Positive(pre);
      MergeAllPositive(m, pre);
    }
  }

  /** Reordering positive quantities into a cart keeps every quantity >= 1. */
  lemma {:induction false} ReorderedPositive(cart: seq<CartItem>, items: seq<CartItem>)
    requires Positive(cart) && Positive(items)
    ensures Positive(Reordered(cart, items))
  {
    DedupPositive(cart);
    MergeAllPositive(Dedup(cart), items);
  }

  /** A line of quantity 3 reordered with quantity 2 becomes quantity 5. */
  lemma {:induction false} ReorderAddsQuantities(x: CartItem)
    requires x.quantity == 3
    ensures Reordered([x], [x.(quantity := 2)]) == [x.(quantity := 5)]
  {
    var cart := [x];
    DedupOfUnique(cart);
    var items := [x.(quantity := 2)];
    assert items[..0] == [];
    assert MergeAll(cart, items) == MergeOne(cart, items[0]);
    MergeOneShape(cart, items[0]);
    assert MapHas(cart, x.id);
  }

  /** One more cart line copied into the map. */
  lemma {:induction false} DedupSnoc(cart: seq<CartItem>, i: nat)
    requires i < |cart|
    ensures Dedup(cart[..i + 1]) == MapSet(Dedup(cart[..i]), cart[i])
  {
    assert cart[..i + 1][..i] == cart[..i];
  }

  /** One more incoming item merged into the map. */
  lemma {:induction false} MergeAllSnoc(m: seq<CartItem>, items: seq<CartItem>, j: nat)
    requires j < |items|
    ensures MergeAll(m, items[..j + 1]) == MergeOne(MergeAll(m, items[..j]), items[j])
  {
    assert items[..j + 1][..j] == items[..j];
  }
}
