/** The index-addressed cart component (src/components/cart.js): lines keyed
    by product and dimensions, a cached grand total, and persistence to
    `localStorage`. */
module CartComponent {
  import opened Common

  /** A cart line as the product card builds it. `length` is the lawn's
      height; `total` is meant to be `area * price * quantity`. */
  datatype CartItem = CartItem(id: string, name: string, price: real, length: real,
                               width: real, area: real, total: real, quantity: int)

  /** One entry of the order handed to the WhatsApp service. */
  datatype OrderLine = OrderLine(productName: string, quantity: int, unitPrice: real, total: real)

  datatype CartData = CartData(customerName: string, customerEmail: string,
                               items: seq<OrderLine>, total: real)

  /** Which toast `checkoutViaWhatsApp` shows. */
  datatype CheckoutOutcome = EmptyCart | Opened | Failed

  function ItemTotal(it: CartItem): real {
    it.total
  }

  /** `calculateTotal`: the sum of the line totals. */
  function Subtotal(items: seq<CartItem>): real {
    Sum(items, ItemTotal)
  }

  /** `getCount()`: the sum of the line quantities. */
  function Quantities(items: seq<CartItem>): int {
    if items == [] then 0 else items[0].quantity + Quantities(items[1..])
  }

  lemma {:induction false} QuantitiesAppend(a: seq<CartItem>, b: seq<CartItem>)
    ensures Quantities(a + b) == Quantities(a) + Quantities(b)
    decreases |a|
  {
    if a == [] {
      assert a + b == b;
    } else {
      assert (a + b)[1..] == a[1..] + b;
      QuantitiesAppend(a[1..], b);
    }
  }

  lemma {:induction false} QuantitiesUpdate(s: seq<CartItem>, k: nat, x: CartItem)
    requires k < |s|
    ensures Quantities(s[k := x]) == Quantities(s) - s[k].quantity + x.quantity
    decreases |s|
  {
    if k == 0 {
      assert s[k := x][1..] == s[1..];
    } else {
      assert s[k := x][1..] == s[1..][k - 1 := x];
      QuantitiesUpdate(s[1..], k - 1, x);
    }
  }

  /** The line total agrees with the line's area, unit price and quantity. */
  predicate Consistent(it: CartItem) {
    it.total == it.area * it.price * it.quantity as real
  }

  predicate AllConsistent(items: seq<CartItem>) {
    forall i :: 0 <= i < |items| ==> Consistent(items[i])
  }

  /** The duplicate test of `addItem`: same product, length and width. */
  function SameLine(item: CartItem): CartItem -> bool {
    (it: CartItem) => it.id == item.id && it.length == item.length && it.width == item.width
  }

  /** Merging as written: the quantity grows, the line total stays. */
  function MergeAsWritten(line: CartItem, item: CartItem): (r: CartItem)
    ensures r.quantity == line.quantity + item.quantity && r.total == line.total
  {
    line.(quantity := line.quantity + item.quantity)
  }

  /** Merging as intended: the quantity grows and the line is repriced, the
      way `updateItemQuantity` reprices it. */
  function Merge(line: CartItem, item: CartItem): (r: CartItem)
    ensures r.quantity == line.quantity + item.quantity
    ensures Consistent(r)
    ensures r.(quantity := line.quantity, total := line.total) == line
  {
    var q := line.quantity + item.quantity;
    line.(quantity := q, total := line.area * line.price * q as real)
  }

  /** `addItem` as written. */
  function AddedAsWritten(items: seq<CartItem>, item: CartItem): (r: seq<CartItem>)
    ensures FindIndex(items, SameLine(item)).None? ==> r == items + [item]
    ensures FindIndex(items, SameLine(item)).Some? ==>
              var k := FindIndex(items, SameLine(item)).value;
              |r| == |items| && r[k] == items[k].(quantity := items[k].quantity + item.quantity)
              && forall j :: 0 <= j < |items| && j != k ==> r[j] == items[j]
  {
    match FindIndex(items, SameLine(item))
    case Some(k) => items[k := MergeAsWritten(items[k], item)]
    case None => items + [item]
  }

  /** `addItem` with the repriced merge. */
  function Added(items: seq<CartItem>, item: CartItem): (r: seq<CartItem>)
    ensures FindIndex(items, SameLine(item)).Some? ==> |r| == |items|
    ensures FindIndex(items, SameLine(item)).None? ==> r == items + [item]
  {
    match FindIndex(items, SameLine(item))
    case Some(k) => items[k := Merge(items[k], item)]
    case None => items + [item]
  }

  /** A merge changes only the matching line, and only its quantity and total. */
  lemma AddedChangesOneLine(items: seq<CartItem>, item: CartItem, k: nat)
    requires FindIndex(items, SameLine(item)) == Some(k)
    ensures forall j :: 0 <= j < |items| && j != k ==> Added(items, item)[j] == items[j]
    ensures Added(items, item)[k].quantity == items[k].quantity + item.quantity
    ensures Added(items, item)[k].(quantity := items[k].quantity, total := items[k].total) == items[k]
  {
  }

  /** Adding an item raises `getCount()` by the item's quantity. */
  lemma AddedCount(items: seq<CartItem>, item: CartItem)
    ensures Quantities(Added(items, item)) == Quantities(items) + item.quantity
  {
    match FindIndex(items, SameLine(item))
    case Some(k) =>
      QuantitiesUpdate(items, k, Merge(items[k], item));
    case None =>
      QuantitiesAppend(items, [item]);
      assert [item][1..] == [];
  }

  /** As written, adding still raises the count by the item's quantity. */
  lemma AddedAsWrittenCount(items: seq<CartItem>, item: CartItem)
    ensures Quantities(AddedAsWritten(items, item)) == Quantities(items) + item.quantity
  {
    match FindIndex(items, SameLine(item))
    case Some(k) =>
      QuantitiesUpdate(items, k, MergeAsWritten(items[k], item));
    case None =>
      QuantitiesAppend(items, [item]);
      assert [item][1..] == [];
  }

  /** As written, a merge leaves the sum of line totals where it was, while
      a new line adds its own total. */
  lemma AddedAsWrittenTotal(items: seq<CartItem>, item: CartItem)
    ensures FindIndex(items, SameLine(item)).Some? ==>
              Subtotal(AddedAsWritten(items, item)) == Subtotal(items)
    ensures FindIndex(items, SameLine(item)).None? ==>
              Subtotal(AddedAsWritten(items, item)) == Subtotal(items) + item.total
  {
    match FindIndex(items, SameLine(item))
    case Some(k) =>
      SumUpdate(items, k, MergeAsWritten(items[k], item), ItemTotal);
    case None =>
      SumAppend(items, [item], ItemTotal);
      assert [item][1..] == [];
  }

  /** With repricing, consistent lines stay consistent when a consistent
      item is added. */
  lemma AddedKeepsConsistent(items: seq<CartItem>, item: CartItem)
    requires AllConsistent(items) && Consistent(item)
    ensures AllConsistent(Added(items, item))
  {
  }

  /** As written, adding the same one-off item twice leaves a line of quantity
      2 priced for 1, so the cart total is half of what is owed. */
  lemma StaleMergeTotal(item: CartItem)
    requires item.quantity == 1 && Consistent(item) && item.total != 0.0
    ensures var s := AddedAsWritten(AddedAsWritten([], item), item);
            |s| == 1 && s[0].quantity == 2 && !Consistent(s[0]) && Subtotal(s) == item.total
  {
    var s1 := AddedAsWritten([], item);
    assert s1 == [item];
    assert FindIndex(s1, SameLine(item)) == Some(0);
    var s := AddedAsWritten(s1, item);
    assert s == [MergeAsWritten(item, item)];
    assert s[1..] == [];
    assert Subtotal(s) == s[0].total + Subtotal(s[1..]);
  }

  /** With repricing, the same two additions total twice the item. */
  lemma RepricedMergeTotal(item: CartItem)
    requires item.quantity == 1 && Consistent(item)
    ensures var s := Added(Added([], item), item);
            |s| == 1 && s[0].quantity == 2 && Consistent(s[0]) && Subtotal(s) == 2.0 * item.total
  {
    var s1 := Added([], item);
    assert s1 == [item];
    assert FindIndex(s1, SameLine(item)) == Some(0);
    var s := Added(s1, item);
    assert s == [Merge(item, item)];
    assert s[1..] == [];
    assert Subtotal(s) == s[0].total + Subtotal(s[1..]);
    assert item.total == item.area * item.price;
    assert s[0].total == item.area * item.price * 2.0;
  }

  /** `cartItems.splice(index, 1)`; an index past the end removes nothing. */
  function RemovedAt(items: seq<CartItem>, index: nat): (r: seq<CartItem>)
    ensures index >= |items| ==> r == items
    ensures index < |items| ==> |r| == |items| - 1
    ensures forall j :: 0 <= j < index && j < |items| ==> r[j] == items[j]
    ensures forall j :: index < j < |items| ==> r[j - 1] == items[j]
  {
    if index < |items| then items[..index] + items[index + 1..] else items
  }

  /** Removing a line takes exactly its total out of the cart total and its
      quantity out of the count. */
  lemma QuantitiesDelete(items: seq<CartItem>, k: nat)
    requires k < |items|
    ensures Quantities(items[..k] + items[k + 1..]) == Quantities(items) - items[k].quantity
  {
    var a, b := items[..k], items[k + 1..];
    assert items == a + ([items[k]] + b);
    QuantitiesAppend(a, [items[k]] + b);
    assert Quantities([items[k]] + b) == items[k].quantity + Quantities(b) by {
      assert ([items[k]] + b)[1..] == b;
    }
    QuantitiesAppend(a, b);
  }

  lemma RemovedAtTotals(items: seq<CartItem>, index: nat)
    requires index < |items|
    ensures Subtotal(RemovedAt(items, index)) == Subtotal(items) - items[index].total
    ensures Quantities(RemovedAt(items, index)) == Quantities(items) - items[index].quantity
  {
    assert RemovedAt(items, index) == items[..index] + items[index + 1..];
    SumDelete(items, index, ItemTotal);
    QuantitiesDelete(items, index);
  }


  /** `updateItemQuantity(index, q)` */
  function QuantitySet(items: seq<CartItem>, index: nat, q: int): (r: seq<CartItem>)
    ensures q <= 0 ==> r == RemovedAt(items, index)
    ensures q > 0 && index < |items| ==>
              |r| == |items| && r[index].quantity == q && Consistent(r[index])
              && r[index].(quantity := items[index].quantity, total := items[index].total) == items[index]
              && forall j :: 0 <= j < |items| && j != index ==> r[j] == items[j]
    ensures q > 0 && index >= |items| ==> r == items
  {
    if q <= 0 then RemovedAt(items, index)
    else if index < |items| then
      items[index := items[index].(quantity := q, total := items[index].area * items[index].price * q as real)]
    else items
  }

  /** The order handed to the WhatsApp service at checkout. */
  function OrderFor(items: seq<CartItem>, total: real): (d: CartData)
    ensures |d.items| == |items| && d.total == total
    ensures forall i :: 0 <= i < |items| ==>
              d.items[i] == OrderLine(items[i].name, items[i].quantity, items[i].price, items[i].total)
  {
    CartData("Customer", "customer@example.com",
             seq(|items|, i requires 0 <= i < |items| =>
               OrderLine(items[i].name, items[i].quantity, items[i].price, items[i].total)),
             total)
  }

  class ShoppingCart {
    var cartItems: seq<CartItem>
    var cartTotal: real
    /** The list last written under `eastleighCart`. */
    var saved: seq<CartItem>

    ghost predicate Valid()
      reads this
    {
      cartTotal == Subtotal(cartItems)
    }

    /** `init()`'s `loadCartFromStorage`: `stored` is what `localStorage`
        holds (`None` for a missing key) and `parse` stands for `JSON.parse`,
        `None` when it throws. A stored text that does not parse leaves the
        cart empty. `saved` holds the lines last written; the source leaves
        unreadable text in storage until the next save, which the model
        records as no lines. */
    constructor Init(stored: Option<string>, parse: string -> Option<seq<CartItem>>)
      ensures Valid()
      ensures stored.None? || stored == Some("") ==> cartItems == []
      ensures stored.Some? && stored.value != "" ==>
                cartItems == (match parse(stored.value) case Some(xs) => xs case None => [])
      ensures saved == cartItems
    {
      cartItems := [];
      cartTotal := 0.0;
      saved := [];
      if stored.Some? && stored.value != "" {
        match parse(stored.value)
        case Some(xs) =>
          cartItems := xs;
          cartTotal := Subtotal(xs);
          saved := xs;
        case None =>
          cartItems := [];
      }
    }

    /** `getCount()` */
    function GetCount(): (n: int)
      reads this
      ensures n == Quantities(cartItems)
      ensures cartItems == [] ==> n == 0
      ensures (forall i :: 0 <= i < |cartItems| ==> cartItems[i].quantity >= 0) ==> n >= 0
    {
      NonNegativeQuantities(cartItems);
      Quantities(cartItems)
    }

    /** `addItem(item)`, with the repriced merge. */
    method AddItem(item: CartItem)
      requires Valid()
      modifies this
      ensures Valid() && saved == cartItems
      ensures cartItems == Added(old(cartItems), item)
      ensures GetCount() == old(GetCount()) + item.quantity
    {
      AddedCount(cartItems, item);
      cartItems := Added(cartItems, item);
      cartTotal := Subtotal(cartItems);
      saved := cartItems;
    }

    /** `removeItem(index)`; an index past the end changes nothing (the
        source then throws while building the toast). */
    method RemoveItem(index: nat)
      requires Valid()
      modifies this
      ensures Valid() && saved == (if index < |old(cartItems)| then cartItems else old(saved))
      ensures cartItems == RemovedAt(old(cartItems), index)
      ensures index < |old(cartItems)| ==> cartTotal == old(cartTotal) - old(cartItems)[index].total
    {
      if index < |cartItems| {
        RemovedAtTotals(cartItems, index);
        cartItems := RemovedAt(cartItems, index);
        cartTotal := Subtotal(cartItems);
        saved := cartItems;
      }
    }

    /** `updateItemQuantity(index, q)`: a quantity of 0 or less is a removal. */
    method UpdateItemQuantity(index: nat, q: int)
      requires Valid()
      modifies this
      ensures Valid()
      ensures cartItems == QuantitySet(old(cartItems), index, q)
      ensures index < |old(cartItems)| ==> saved == cartItems
      ensures index >= |old(cartItems)| ==> saved == old(saved)
    {
      if q <= 0 {
        RemoveItem(index);
        return;
      }
      if index < |cartItems| {
        cartItems := QuantitySet(cartItems, index, q);
        cartTotal := Subtotal(cartItems);
        saved := cartItems;
      }
    }

    /** `clearCart()` */
    method ClearCart()
      modifies this
      ensures Valid() && cartItems == [] && cartTotal == 0.0 && saved == []
    {
      cartItems := [];
      cartTotal := 0.0;
      saved := [];
    }

    /** `checkoutViaWhatsApp()`: `senderOk` is what `sendOrderForm` returns.
        An empty cart sends nothing; otherwise the order is sent with the
        cached total, and the cart is kept either way. */
    method Checkout(senderOk: bool) returns (sent: Option<CartData>, outcome: CheckoutOutcome)
      ensures sent.None? <==> cartItems == []
      ensures sent.None? ==> outcome == EmptyCart
      ensures sent.Some? ==> sent.value == OrderFor(cartItems, cartTotal)
                             && outcome == (if senderOk then Opened else Failed)
    {
      if |cartItems| == 0 {
        return None, EmptyCart;
      }
      sent := Some(OrderFor(cartItems, cartTotal));
      outcome := if senderOk then Opened else Failed;
    }
  }

  lemma {:induction false} NonNegativeQuantities(items: seq<CartItem>)
    ensures (forall i :: 0 <= i < |items| ==> items[i].quantity >= 0) ==> Quantities(items) >= 0
    decreases |items|
  {
    if items != [] {
      NonNegativeQuantities(items[1..]);
    }
  }
}
