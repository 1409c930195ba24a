/** The storefront's central cart (src/state/cartState.js): a list of priced
    lines, a single-code discount, and subscribers that are told about every
    change. */
module CartState {
  import opened Common

  /** The id of a cart line: a `Date.now()` stamp, or an id the caller supplied. */
  datatype LineId = Stamp(ms: int) | Given(key: string)

  /** What a product card hands to `add`; `id` is the card's own `id` key, if any. */
  datatype Item = Item(id: Option<string>, product: string, width: real, height: real,
                       area: real, total: real)

  datatype Line = Line(id: LineId, product: string, width: real, height: real,
                       area: real, total: real)

  /** What every subscriber is called with: `{ items, total, discount }`. */
  datatype Snapshot = Snapshot(items: seq<Line>, total: real, discount: real)

  /** One callback invocation made by `render`; `threw` records that the
      callback raised, which `render` catches and logs. */
  datatype Delivery = Delivery(subscriber: nat, state: Snapshot, threw: bool)

  /** The discount code the demo knows. */
  const SaveCode: string := "SAVE10"

  function LineTotal(l: Line): real {
    l.total
  }

  function Subtotal(items: seq<Line>): real {
    Sum(items, LineTotal)
  }

  /** The discount that `applyDiscount(code)` sets. */
  function RateFor(code: string): (d: real)
    ensures d == 0.1 <==> code == SaveCode
    ensures d == 0.0 <==> code != SaveCode
  {
    if code == SaveCode then 0.1 else 0.0
  }

  /** `subtotal - subtotal * discount` */
  function Total(items: seq<Line>, discount: real): real {
    Subtotal(items) - Subtotal(items) * discount
  }

  /** With the code the total is nine tenths of the subtotal, with any other
      code it is the subtotal. */
  lemma TotalByCode(items: seq<Line>, code: string)
    ensures code == SaveCode ==> Total(items, RateFor(code)) == 0.9 * Subtotal(items)
    ensures code != SaveCode ==> Total(items, RateFor(code)) == Subtotal(items)
  {
  }

  /** The line `add` should store: the item with a fresh id from the clock. */
  function FreshLine(item: Item, now: int): (l: Line)
    ensures l.id == Stamp(now)
    ensures l.total == item.total && l.area == item.area
  {
    Line(Stamp(now), item.product, item.width, item.height, item.area, item.total)
  }

  /** `{ id, ...item }` as written: the spread comes after the clock id, so an
      `id` key of the item overrides it. */
  function SpreadLine(item: Item, now: int): (l: Line)
    ensures item.id.Some? ==> l.id == Given(item.id.value)
    ensures item.id.None? ==> l == FreshLine(item, now)
  {
    var id := match item.id
      case Some(k) => Given(k)
      case None => Stamp(now);
    Line(id, item.product, item.width, item.height, item.area, item.total)
  }

  function IdIsNot(id: LineId): Line -> bool {
    (l: Line) => l.id != id
  }

  /** `items.filter(it => it.id !== id)` */
  function WithoutId(items: seq<Line>, id: LineId): (r: seq<Line>)
    ensures forall i :: 0 <= i < |r| ==> r[i].id != id
    ensures forall i :: 0 <= i < |items| && items[i].id != id ==> items[i] in r
    ensures IsSubsequence(r, items)
  {
    FilterIsSubsequence(items, IdIsNot(id));
    FilterMembers(items, IdIsNot(id));
    Filter(items, IdIsNot(id))
  }

  /** Removing an id that no line carries changes nothing. */
  lemma RemoveAbsent(items: seq<Line>, id: LineId)
    requires forall i :: 0 <= i < |items| ==> items[i].id != id
    ensures WithoutId(items, id) == items
  {
    FilterKeepsAll(items, IdIsNot(id));
  }

  /** With a clock id not yet in the cart, removing the new line's id takes
      back exactly that `add`. */
  lemma RemoveFreshLine(items: seq<Line>, item: Item, now: int)
    requires forall i :: 0 <= i < |items| ==> items[i].id != Stamp(now)
    ensures WithoutId(items + [FreshLine(item, now)], Stamp(now)) == items
  {
    FilterAppend(items, [FreshLine(item, now)], IdIsNot(Stamp(now)));
    FilterKeepsAll(items, IdIsNot(Stamp(now)));
    assert Filter([FreshLine(item, now)], IdIsNot(Stamp(now))) == [];
  }

  /** As written, two lines added for the same product share the product's id,
      so removing the second also removes the first. */
  lemma SpreadIdRemovesSibling(a: Item, b: Item, t1: int, t2: int)
    requires a.id.Some? && b.id == a.id
    ensures WithoutId([SpreadLine(a, t1), SpreadLine(b, t2)], SpreadLine(b, t2).id) == []
  {
    var p := IdIsNot(SpreadLine(b, t2).id);
    var s := [SpreadLine(a, t1), SpreadLine(b, t2)];
    assert s[1..] == [SpreadLine(b, t2)] && s[1..][1..] == [];
    assert Filter(s, p) == Filter(s[1..], p);
  }

  /** With clock ids, removing the second line keeps the first. */
  lemma FreshIdKeepsSibling(a: Item, b: Item, t1: int, t2: int)
    requires t1 != t2
    ensures WithoutId([FreshLine(a, t1), FreshLine(b, t2)], Stamp(t2)) == [FreshLine(a, t1)]
  {
    RemoveFreshLine([FreshLine(a, t1)], b, t2);
    assert [FreshLine(a, t1)] + [FreshLine(b, t2)] == [FreshLine(a, t1), FreshLine(b, t2)];
  }

  /** `subscribers.splice(subscribers.indexOf(cb), 1)` when `cb` is present. */
  function RemoveFirst(s: seq<nat>, x: nat): (r: seq<nat>)
    ensures x !in s ==> r == s
    ensures |r| == if x in s then |s| - 1 else |s|
  {
    if s == [] then []
    else if s[0] == x then s[1..]
    else [s[0]] + RemoveFirst(s[1..], x)
  }

  /** Exactly one registration of the callback goes; all others stay. */
  lemma {:induction false} RemoveFirstMultiset(s: seq<nat>, x: nat)
    ensures multiset(RemoveFirst(s, x)) == multiset(s) - multiset{x}
    decreases |s|
  {
    if s != [] {
      assert s == [s[0]] + s[1..];
      if s[0] != x {
        RemoveFirstMultiset(s[1..], x);
      }
    }
  }

  /** Unsubscribing removes the first registration of the callback and keeps
      the others in order. */
  lemma {:induction false} RemoveFirstAt(s: seq<nat>, x: nat, k: nat)
    requires k < |s| && s[k] == x && x !in s[..k]
    ensures RemoveFirst(s, x) == s[..k] + s[k + 1..]
    decreases k
  {
    if k == 0 {
      assert s[..0] + s[1..] == s[1..];
    } else {
      var t := s[1..];
      assert s[0] == s[..k][0];
      assert RemoveFirst(s, x) == [s[0]] + RemoveFirst(t, x);
      assert t[..k - 1] == s[1..k];
      assert x !in t[..k - 1] by {
        assert forall y :: y in s[1..k] ==> y in s[..k];
      }
      RemoveFirstAt(t, x, k - 1);
      assert t[k..] == s[k + 1..];
      assert s[..k] == [s[0]] + s[1..k];
    }
  }

  /** Every subscriber, in registration order, called with the same state. */
  function Notifications(subscribers: seq<nat>, state: Snapshot, throwing: set<nat>): seq<Delivery> {
    seq(|subscribers|, i requires 0 <= i < |subscribers| =>
      Delivery(subscribers[i], state, subscribers[i] in throwing))
  }

  class Cart {
    var items: seq<Line>
    var discount: real
    var subscribers: seq<nat>

    ghost predicate Valid()
      reads this
    {
      discount == 0.0 || discount == 0.1
    }

    constructor ()
      ensures Valid() && items == [] && discount == 0.0 && subscribers == []
    {
      items := [];
      discount := 0.0;
      subscribers := [];
    }

    /** `getTotal()` */
    function GetTotal(): (t: real)
      reads this
      ensures discount == 0.1 ==> t == 0.9 * Subtotal(items)
      ensures discount == 0.0 ==> t == Subtotal(items)
    {
      Total(items, discount)
    }

    /** `{ items: getItems(), total: getTotal(), discount }` */
    function State(): Snapshot
      reads this
    {
      Snapshot(items, GetTotal(), discount)
    }

    /** `render()`: every subscriber is called, in order, even after one of
        them threw. `throwing` names the callbacks that raise. */
    method Render(throwing: set<nat>) returns (calls: seq<Delivery>)
      ensures |calls| == |subscribers|
      ensures forall i :: 0 <= i < |calls| ==>
                calls[i].subscriber == subscribers[i] && calls[i].state == State()
      ensures calls == Notifications(subscribers, State(), throwing)
    {
      calls := [];
      var i := 0;
      while i < |subscribers|
        invariant 0 <= i <= |subscribers|
        invariant |calls| == i
        invariant forall k :: 0 <= k < i ==>
                    calls[k] == Delivery(subscribers[k], State(), subscribers[k] in throwing)
      {
        var threw := subscribers[i] in throwing;
        calls := calls + [Delivery(subscribers[i], State(), threw)];
        i := i + 1;
      }
    }

    /** `add(item)`, storing the line under a clock id. */
    method Add(item: Item, now: int, throwing: set<nat>) returns (calls: seq<Delivery>)
      requires Valid()
      modifies this
      ensures Valid()
      ensures items == old(items) + [FreshLine(item, now)]
      ensures discount == old(discount) && subscribers == old(subscribers)
      ensures calls == Notifications(subscribers, State(), throwing)
    {
      items := items + [FreshLine(item, now)];
      calls := Render(throwing);
    }

    /** `remove(id)` */
    method Remove(id: LineId, throwing: set<nat>) returns (calls: seq<Delivery>)
      requires Valid()
      modifies this
      ensures Valid()
      ensures items == WithoutId(old(items), id)
      ensures discount == old(discount) && subscribers == old(subscribers)
      ensures calls == Notifications(subscribers, State(), throwing)
    {
      items := WithoutId(items, id);
      calls := Render(throwing);
    }

    /** `clear()` */
    method Clear(throwing: set<nat>) returns (calls: seq<Delivery>)
      modifies this
      ensures Valid()
      ensures items == [] && discount == 0.0 && subscribers == old(subscribers)
      ensures calls == Notifications(subscribers, State(), throwing)
    {
      items := [];
      discount := 0.0;
      calls := Render(throwing);
    }

    /** `applyDiscount(code)`: the new discount depends on the code alone, so
        applying the same code again leaves the state as it is. */
    method ApplyDiscount(code: string, throwing: set<nat>) returns (calls: seq<Delivery>)
      modifies this
      ensures Valid()
      ensures discount == RateFor(code)
      ensures items == old(items) && subscribers == old(subscribers)
      ensures calls == Notifications(subscribers, State(), throwing)
    {
      if code == SaveCode {
        discount := 0.1;
      } else {
        discount := 0.0;
      }
      calls := Render(throwing);
    }

    /** `subscribe(cb)`; it does not render. */
    method Subscribe(cb: nat)
      modifies this
      ensures subscribers == old(subscribers) + [cb]
      ensures items == old(items) && discount == old(discount)
    {
      subscribers := subscribers + [cb];
    }

    /** The function `subscribe(cb)` returns: drops the first registration of
        `cb`, or nothing once none is left. */
    method Unsubscribe(cb: nat)
      modifies this
      ensures subscribers == RemoveFirst(old(subscribers), cb)
      ensures cb !in old(subscribers) ==> subscribers == old(subscribers)
      ensures items == old(items) && discount == old(discount)
    {
      subscribers := RemoveFirst(subscribers, cb);
    }
  }
}
