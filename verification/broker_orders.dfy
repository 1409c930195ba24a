/** The broker's order draft (broker/js/modules/orders.js): numbered lines,
    each a product and a quantity priced from the catalog. */
module BrokerOrders {
  import opened Common
  import opened Numbers
  import opened Catalog

  datatype OrderItem = OrderItem(id: int, productId: string, product: Option<Product>,
                                 quantity: real, unitPrice: real, total: real)

  function ItemId(it: OrderItem): int {
    it.id
  }

  function ItemTotal(it: OrderItem): real {
    it.total
  }

  function Amount(it: OrderItem): real {
    it.unitPrice * it.quantity
  }

  /** The line total agrees with its unit price and quantity. */
  predicate Priced(it: OrderItem) {
    it.total == it.unitPrice * it.quantity
  }

  /** What the draft promises about its lines: distinct ids, all below the
      counter, every line priced. */
  predicate Good(items: seq<OrderItem>, nextItemId: int) {
    nextItemId >= 1
    && DistinctKeys(items, ItemId)
    && (forall i :: 0 <= i < |items| ==> items[i].id < nextItemId && Priced(items[i]))
  }

  /** The line `addItem` appends. */
  function Blank(id: int): (it: OrderItem)
    ensures it.id == id && it.productId == "" && it.product.None?
    ensures it.quantity == 1.0 && it.unitPrice == 0.0 && it.total == 0.0
  {
    OrderItem(id, "", None, 1.0, 0.0, 0.0)
  }

  function HasId(id: int): OrderItem -> bool {
    (it: OrderItem) => it.id == id
  }

  function IdIsNot(id: int): OrderItem -> bool {
    (it: OrderItem) => it.id != id
  }

  /** `orderItems.filter(item => item.id !== itemId)` */
  function WithoutId(items: seq<OrderItem>, id: int): (r: seq<OrderItem>)
    ensures forall i :: 0 <= i < |r| ==> r[i].id != id && r[i] in items
    ensures forall i :: 0 <= i < |items| && items[i].id != id ==> items[i] in r
    ensures IsSubsequence(r, items)
  {
    FilterIsSubsequence(items, IdIsNot(id));
    FilterMembers(items, IdIsNot(id));
    Filter(items, IdIsNot(id))
  }

  /** A product chosen: its catalog price, or 0 when the id is unknown. */
  function WithProduct(products: seq<Product>, value: string, it: OrderItem): (r: OrderItem)
    ensures r.productId == value && r.product == Lookup(products, value)
    ensures r.unitPrice == PriceOf(products, value) && Priced(r)
    ensures r.(productId := it.productId, product := it.product, unitPrice := it.unitPrice,
               total := it.total) == it
  {
    var price := PriceOf(products, value);
    it.(productId := value, product := Lookup(products, value), unitPrice := price,
        total := price * it.quantity)
  }

  /** The line with quantity `q` and its total recomputed. */
  function Requantified(it: OrderItem, q: real): (r: OrderItem)
    ensures r.quantity == q && Priced(r)
    ensures r.(quantity := it.quantity, total := it.total) == it
  {
    it.(quantity := q, total := it.unitPrice * q)
  }

  /** A quantity typed: `parseFloat(value) || 0`, and the total recomputed. */
  function WithQuantity(value: string, it: OrderItem): OrderItem {
    Requantified(it, NumberOrZero(value))
  }

  /** The effect of `updateItem(id, field, value)` on the line it finds:
      only the named field and what depends on it change. */
  function Updated(products: seq<Product>, field: string, value: string, it: OrderItem): (r: OrderItem)
    ensures r.id == it.id
    ensures field == "productId" ==> r == WithProduct(products, value, it)
    ensures field == "quantity" ==> r == WithQuantity(value, it)
    ensures Priced(it) ==> Priced(r)
  {
    if field == "productId" then WithProduct(products, value, it)
    else if field == "quantity" then WithQuantity(value, it)
    else it
  }

  function Updater(products: seq<Product>, field: string, value: string): OrderItem -> OrderItem {
    (it: OrderItem) => Updated(products, field, value, it)
  }

  /** `updateItem(id, field, value)` over the whole list. */
  function UpdatedItems(items: seq<OrderItem>, products: seq<Product>, id: int,
                        field: string, value: string): seq<OrderItem> {
    UpdateFirst(items, HasId(id), Updater(products, field, value))
  }

  /** `calculateTotal()` */
  function Total(items: seq<OrderItem>): real {
    Sum(items, ItemTotal)
  }

  /** With every line priced, the order total is the sum of unit price times
      quantity. */
  lemma TotalIsAmounts(items: seq<OrderItem>)
    requires forall i :: 0 <= i < |items| ==> Priced(items[i])
    ensures Total(items) == Sum(items, Amount)
  {
    SumCongruent(items, ItemTotal, Amount);
  }

  /** Adding a blank line to a good draft keeps it good. */
  lemma AddKeepsGood(items: seq<OrderItem>, next: int)
    requires Good(items, next)
    ensures Good(items + [Blank(next)], next + 1)
    ensures Total(items + [Blank(next)]) == Total(items)
  {
    var s := items + [Blank(next)];
    forall i, j | 0 <= i < j < |s|
      ensures ItemId(s[i]) != ItemId(s[j])
    {
      if j < |items| {
        assert ItemId(items[i]) != ItemId(items[j]);
      }
    }
    SumAppend(items, [Blank(next)], ItemTotal);
    assert Sum([Blank(next)], ItemTotal) == 0.0 + Sum([Blank(next)][1..], ItemTotal);
  }

  /** Removing lines keeps a good draft good. */
  lemma RemoveKeepsGood(items: seq<OrderItem>, next: int, id: int)
    requires Good(items, next)
    ensures Good(WithoutId(items, id), next)
  {
    FilterDistinctKeys(items, IdIsNot(id), ItemId);
  }

  /** An id that no line carries, or a field other than `productId` and
      `quantity`, leaves every line as it was. */
  lemma UpdateNoOp(items: seq<OrderItem>, products: seq<Product>, id: int, field: string, value: string)
    requires (forall i :: 0 <= i < |items| ==> items[i].id != id)
             || (field != "productId" && field != "quantity")
    ensures UpdatedItems(items, products, id, field, value) == items
  {
    match FindIndex(items, HasId(id))
    case None =>
    case Some(k) =>
      assert Updater(products, field, value)(items[k]) == items[k];
  }

  /** An update changes the one line with that id, and keeps a good draft good. */
  lemma UpdateKeepsGood(items: seq<OrderItem>, next: int, products: seq<Product>, id: int,
                        field: string, value: string)
    requires Good(items, next)
    ensures Good(UpdatedItems(items, products, id, field, value), next)
    ensures forall k :: 0 <= k < |items| && items[k].id == id ==>
              UpdatedItems(items, products, id, field, value) == items[k := Updated(products, field, value, items[k])]
  {
    match FindIndex(items, HasId(id))
    case None =>
    case Some(k) =>
      var s := UpdatedItems(items, products, id, field, value);
      assert s == items[k := Updated(products, field, value, items[k])];
      forall i, j | 0 <= i < j < |s|
        ensures ItemId(s[i]) != ItemId(s[j])
      {
        assert ItemId(items[i]) != ItemId(items[j]);
      }
  }

  /** What the quantity input's handler does to the list: the line with that
      id gets the parsed quantity (0 when unparseable) and a recomputed total. */
  function QuantityTyped(items: seq<OrderItem>, id: int, value: string): (r: seq<OrderItem>)
    ensures |r| == |items|
  {
    match FindIndex(items, HasId(id))
    case None => items
    case Some(k) =>
      items[k := Requantified(items[k], NumberOrZero(value))]
  }

  /** The handler has the same effect as `updateItem(id, 'quantity', value)`. */
  lemma QuantityInputIsUpdate(items: seq<OrderItem>, products: seq<Product>, id: int, value: string)
    ensures QuantityTyped(items, id, value) == UpdatedItems(items, products, id, "quantity", value)
  {
    match FindIndex(items, HasId(id))
    case None =>
    case Some(k) =>
      assert Updater(products, "quantity", value)(items[k]) == WithQuantity(value, items[k]);
      assert QuantityTyped(items, id, value) == items[k := WithQuantity(value, items[k])];
      assert UpdatedItems(items, products, id, "quantity", value)
          == items[k := Updater(products, "quantity", value)(items[k])];
  }

  class OrderDraft {
    var products: seq<Product>
    var orderItems: seq<OrderItem>
    var nextItemId: int

    ghost predicate Valid()
      reads this
    {
      Good(orderItems, nextItemId)
    }

    /** The module's start: `catalog` is what `loadProducts` fetched (empty
        when the fetch failed). */
    constructor (catalog: seq<Product>)
      ensures Valid() && products == catalog && orderItems == [] && nextItemId == 1
    {
      products := catalog;
      orderItems := [];
      nextItemId := 1;
    }

    /** `addItem()` */
    method AddItem()
      requires Valid()
      modifies this
      ensures Valid()
      ensures orderItems == old(orderItems) + [Blank(old(nextItemId))]
      ensures nextItemId == old(nextItemId) + 1 && products == old(products)
      ensures CalculateTotal() == old(CalculateTotal())
    {
      AddKeepsGood(orderItems, nextItemId);
      orderItems := orderItems + [Blank(nextItemId)];
      nextItemId := nextItemId + 1;
    }

    /** `removeItem(itemId)` */
    method RemoveItem(itemId: int)
      requires Valid()
      modifies this
      ensures Valid()
      ensures orderItems == WithoutId(old(orderItems), itemId)
      ensures nextItemId == old(nextItemId) && products == old(products)
    {
      RemoveKeepsGood(orderItems, nextItemId, itemId);
      orderItems := WithoutId(orderItems, itemId);
    }

    /** `updateItem(itemId, field, value)` */
    method UpdateItem(itemId: int, field: string, value: string)
      requires Valid()
      modifies this
      ensures Valid()
      ensures orderItems == UpdatedItems(old(orderItems), products, itemId, field, value)
      ensures nextItemId == old(nextItemId) && products == old(products)
    {
      UpdateKeepsGood(orderItems, nextItemId, products, itemId, field, value);
      orderItems := UpdatedItems(orderItems, products, itemId, field, value);
    }

    /** The quantity input's handler: it sets the quantity and total of the
        line directly, without re-rendering, to the same effect as
        `updateItem(id, 'quantity', value)`. */
    method OnQuantityInput(itemId: int, value: string)
      requires Valid()
      modifies this
      ensures Valid()
      ensures orderItems == UpdatedItems(old(orderItems), products, itemId, "quantity", value)
      ensures nextItemId == old(nextItemId) && products == old(products)
    {
      QuantityInputIsUpdate(orderItems, products, itemId, value);
      UpdateKeepsGood(orderItems, nextItemId, products, itemId, "quantity", value);
      orderItems := QuantityTyped(orderItems, itemId, value);
    }

    /** `calculateTotal()` */
    function CalculateTotal(): (t: real)
      reads this
      ensures orderItems == [] ==> t == 0.0
    {
      Total(orderItems)
    }
  }
}
