/** The broker's preorder draft (dist/js/modules/preorders.js): numbered
    lines with a product, a quantity, an expected date and notes, submitted
    together through the WhatsApp service. */
module Preorders {
  import opened Common
  import opened Numbers
  import opened Catalog

  datatype Preorder = Preorder(id: int, productId: string, product: Option<Product>,
                               quantity: real, unitPrice: real, total: real,
                               expectedDate: string, specialNotes: string)

  /** One entry of the payload handed to `sendPreorderForm`. */
  datatype PreorderLine = PreorderLine(product: Option<Product>, quantity: real,
                                       unitPrice: real, total: real)

  datatype PreorderData = PreorderData(brokerName: string, brokerEmail: string,
                                       items: seq<PreorderLine>, expectedDate: string,
                                       specialNotes: string, total: real)

  /** Why a submission stopped, or how it ended. */
  datatype SubmitOutcome = NothingToSubmit | Incomplete | Submitted | SendFailed

  /** The result of the checks `submitPreorders` makes before sending. */
  datatype Prepared = Rejected(reason: SubmitOutcome) | Ready(data: PreorderData)

  function PreorderId(p: Preorder): int {
    p.id
  }

  function PreorderTotal(p: Preorder): real {
    p.total
  }

  predicate Priced(p: Preorder) {
    p.total == p.unitPrice * p.quantity
  }

  predicate Good(items: seq<Preorder>, nextId: int) {
    nextId >= 1
    && DistinctKeys(items, PreorderId)
    && (forall i :: 0 <= i < |items| ==> items[i].id < nextId && Priced(items[i]))
  }

  /** The line `addPreorder` appends. */
  function Blank(id: int): (p: Preorder)
    ensures p.id == id && p.productId == "" && p.product.None? && p.quantity == 1.0
    ensures p.unitPrice == 0.0 && p.total == 0.0 && p.expectedDate == "" && p.specialNotes == ""
  {
    Preorder(id, "", None, 1.0, 0.0, 0.0, "", "")
  }

  function HasId(id: int): Preorder -> bool {
    (p: Preorder) => p.id == id
  }

  function IdIsNot(id: int): Preorder -> bool {
    (p: Preorder) => p.id != id
  }

  /** `preorderItems.filter(preorder => preorder.id !== preorderId)` */
  function WithoutId(items: seq<Preorder>, id: int): (r: seq<Preorder>)
    ensures forall i :: 0 <= i < |r| ==> r[i].id != id && r[i] in items
    ensures forall i :: 0 <= i < |items| && items[i].id != id ==> items[i] in r
    ensures IsSubsequence(r, items)
  {
    FilterIsSubsequence(items, IdIsNot(id));
    FilterMembers(items, IdIsNot(id));
    Filter(items, IdIsNot(id))
  }

  /** A product chosen: its catalog price, or 0 when the id is unknown. */
  function WithProduct(products: seq<Product>, value: string, p: Preorder): (r: Preorder)
    ensures r.productId == value && r.product == Lookup(products, value)
    ensures r.unitPrice == PriceOf(products, value) && Priced(r)
    ensures r.(productId := p.productId, product := p.product, unitPrice := p.unitPrice,
               total := p.total) == p
  {
    var price := PriceOf(products, value);
    p.(productId := value, product := Lookup(products, value), unitPrice := price,
       total := price * p.quantity)
  }

  /** The line with quantity `q` and its total recomputed. */
  function Requantified(p: Preorder, q: real): (r: Preorder)
    ensures r.quantity == q && Priced(r)
    ensures r.(quantity := p.quantity, total := p.total) == p
  {
    p.(quantity := q, total := p.unitPrice * q)
  }

  /** A quantity typed: `parseFloat(value) || 0`, and the total recomputed. */
  function WithQuantity(value: string, p: Preorder): Preorder {
    Requantified(p, NumberOrZero(value))
  }

  /** The effect of `updatePreorder(id, field, value)` on the line it finds:
      only the named field and what depends on it change. */
  function Updated(products: seq<Product>, field: string, value: string, p: Preorder): (r: Preorder)
    ensures r.id == p.id
    ensures field == "productId" ==> r == WithProduct(products, value, p)
    ensures field == "quantity" ==> r == WithQuantity(value, p)
    ensures field == "expectedDate" ==> r == p.(expectedDate := value)
    ensures field == "specialNotes" ==> r == p.(specialNotes := value)
    ensures Priced(p) ==> Priced(r)
  {
    if field == "productId" then WithProduct(products, value, p)
    else if field == "quantity" then WithQuantity(value, p)
    else if field == "expectedDate" then p.(expectedDate := value)
    else if field == "specialNotes" then p.(specialNotes := value)
    else p
  }

  function Updater(products: seq<Product>, field: string, value: string): Preorder -> Preorder {
    (p: Preorder) => Updated(products, field, value, p)
  }

  /** `updatePreorder(id, field, value)` over the whole list. */
  function UpdatedItems(items: seq<Preorder>, products: seq<Product>, id: int,
                        field: string, value: string): seq<Preorder> {
    UpdateFirst(items, HasId(id), Updater(products, field, value))
  }

  /** `calculateTotal()` */
  function Total(items: seq<Preorder>): real {
    Sum(items, PreorderTotal)
  }

  /** What a line should cost: unit price times quantity. */
  function Amount(p: Preorder): real {
    p.unitPrice * p.quantity
  }

  /** In a good draft the total is the sum of unit price times quantity over
      the lines. */
  lemma TotalIsAmounts(items: seq<Preorder>, nextId: int)
    requires Good(items, nextId)
    ensures Total(items) == Sum(items, Amount)
  {
    SumCongruent(items, PreorderTotal, Amount);
  }

  /** The line is not ready to send: no product chosen, or no positive quantity. */
  predicate IsIncomplete(p: Preorder) {
    p.productId == "" || p.quantity <= 0.0
  }

  function PayloadLine(p: Preorder): PreorderLine {
    PreorderLine(p.product, p.quantity, p.unitPrice, p.total)
  }

  /** The checks and the payload of `submitPreorders`. */
  function Prepare(items: seq<Preorder>): (r: Prepared)
    ensures items == [] ==> r == Rejected(NothingToSubmit)
    ensures items != [] && (exists i :: 0 <= i < |items| && IsIncomplete(items[i])) ==>
              r == Rejected(Incomplete)
    ensures r.Ready? <==> items != [] && forall i :: 0 <= i < |items| ==> !IsIncomplete(items[i])
    ensures r.Ready? ==>
              |r.data.items| == |items| && r.data.total == Total(items)
              && r.data.expectedDate == (if items[0].expectedDate == "" then "Not specified" else items[0].expectedDate)
              && r.data.specialNotes == (if items[0].specialNotes == "" then "None" else items[0].specialNotes)
              && forall i :: 0 <= i < |items| ==> r.data.items[i] == PayloadLine(items[i])
  {
    FilterMembers(items, IsIncomplete);
    if |items| == 0 then Rejected(NothingToSubmit)
    else if Filter(items, IsIncomplete) != [] then
      assert exists i :: 0 <= i < |items| && IsIncomplete(items[i]) by {
        var w := Filter(items, IsIncomplete)[0];
        var i :| 0 <= i < |items| && items[i] == w;
      }
      Rejected(Incomplete)
    else
      Ready(PreorderData("Broker User", "broker@eastleighturf.com",
                         seq(|items|, i requires 0 <= i < |items| => PayloadLine(items[i])),
                         OrElse(items[0].expectedDate, "Not specified"),
                         OrElse(items[0].specialNotes, "None"),
                         Total(items)))
  }

  lemma AddKeepsGood(items: seq<Preorder>, next: int)
    requires Good(items, next)
    ensures Good(items + [Blank(next)], next + 1)
  {
    var s := items + [Blank(next)];
    forall i, j | 0 <= i < j < |s|
      ensures PreorderId(s[i]) != PreorderId(s[j])
    {
      if j < |items| {
        assert PreorderId(items[i]) != PreorderId(items[j]);
      }
    }
  }

  lemma RemoveKeepsGood(items: seq<Preorder>, next: int, id: int)
    requires Good(items, next)
    ensures Good(WithoutId(items, id), next)
  {
    FilterDistinctKeys(items, IdIsNot(id), PreorderId);
  }

  /** An update keeps a good draft good and touches the one line with that id. */
  lemma UpdateKeepsGood(items: seq<Preorder>, next: int, products: seq<Product>, id: int,
                        field: string, value: string)
    requires Good(items, next)
    ensures Good(UpdatedItems(items, products, id, field, value), next)
    ensures forall k :: 0 <= k < |items| && items[k].id == id ==>
              UpdatedItems(items, products, id, field, value) == items[k := Updated(products, field, value, items[k])]
  {
    match FindIndex(items, HasId(id))
    case None =>
    case Some(k) =>
      var s := UpdatedItems(items, products, id, field, value);
      assert s == items[k := Updated(products, field, value, items[k])];
      forall i, j | 0 <= i < j < |s|
        ensures PreorderId(s[i]) != PreorderId(s[j])
      {
        assert PreorderId(items[i]) != PreorderId(items[j]);
      }
  }

  /** An id that no line carries, or a field the form does not have, leaves
      every line as it was. */
  lemma UpdateNoOp(items: seq<Preorder>, products: seq<Product>, id: int, field: string, value: string)
    requires (forall i :: 0 <= i < |items| ==> items[i].id != id)
             || (field != "productId" && field != "quantity" && field != "expectedDate"
                 && field != "specialNotes")
    ensures UpdatedItems(items, products, id, field, value) == items
  {
    match FindIndex(items, HasId(id))
    case None =>
    case Some(k) =>
      assert Updater(products, field, value)(items[k]) == items[k];
  }

  /** A date or a note leaves the price and the total of every line alone. */
  lemma TextUpdateKeepsTotals(items: seq<Preorder>, products: seq<Product>, id: int,
                              field: string, value: string)
    requires field == "expectedDate" || field == "specialNotes"
    ensures Total(UpdatedItems(items, products, id, field, value)) == Total(items)
  {
    match FindIndex(items, HasId(id))
    case None =>
    case Some(k) =>
      SumUpdate(items, k, Updated(products, field, value, items[k]), PreorderTotal);
  }

  class PreorderDraft {
    var products: seq<Product>
    var preorderItems: seq<Preorder>
    var nextPreorderId: int

    ghost predicate Valid()
      reads this
    {
      Good(preorderItems, nextPreorderId)
    }

    constructor (catalog: seq<Product>)
      ensures Valid() && products == catalog && preorderItems == [] && nextPreorderId == 1
    {
      products := catalog;
      preorderItems := [];
      nextPreorderId := 1;
    }

    /** `getItemCount()` */
    function GetItemCount(): (n: nat)
      reads this
      ensures n == |preorderItems|
    {
      |preorderItems|
    }

    /** `addPreorder()` */
    method AddPreorder()
      requires Valid()
      modifies this
      ensures Valid()
      ensures preorderItems == old(preorderItems) + [Blank(old(nextPreorderId))]
      ensures nextPreorderId == old(nextPreorderId) + 1 && products == old(products)
      ensures GetItemCount() == old(GetItemCount()) + 1
    {
      AddKeepsGood(preorderItems, nextPreorderId);
      preorderItems := preorderItems + [Blank(nextPreorderId)];
      nextPreorderId := nextPreorderId + 1;
    }

    /** `removePreorder(preorderId)` */
    method RemovePreorder(preorderId: int)
      requires Valid()
      modifies this
      ensures Valid()
      ensures preorderItems == WithoutId(old(preorderItems), preorderId)
      ensures nextPreorderId == old(nextPreorderId) && products == old(products)
    {
      RemoveKeepsGood(preorderItems, nextPreorderId, preorderId);
      preorderItems := WithoutId(preorderItems, preorderId);
    }

    /** `updatePreorder(preorderId, field, value)` */
    method UpdatePreorder(preorderId: int, field: string, value: string)
      requires Valid()
      modifies this
      ensures Valid()
      ensures preorderItems == UpdatedItems(old(preorderItems), products, preorderId, field, value)
      ensures nextPreorderId == old(nextPreorderId) && products == old(products)
    {
      UpdateKeepsGood(preorderItems, nextPreorderId, products, preorderId, field, value);
      preorderItems := UpdatedItems(preorderItems, products, preorderId, field, value);
    }

    /** `submitPreorders()`: `senderOk` is what `sendPreorderForm` returns.
        Nothing is sent unless every line is complete; the draft is emptied
        and the numbering restarted only when the sender succeeds. */
    method SubmitPreorders(senderOk: bool) returns (sent: Option<PreorderData>, outcome: SubmitOutcome)
      requires Valid()
      modifies this
      ensures Valid() && products == old(products)
      ensures Prepare(old(preorderItems)).Rejected? ==>
                sent.None? && outcome == Prepare(old(preorderItems)).reason
                && preorderItems == old(preorderItems) && nextPreorderId == old(nextPreorderId)
      ensures Prepare(old(preorderItems)).Ready? ==>
                sent == Some(Prepare(old(preorderItems)).data)
                && (senderOk ==> outcome == Submitted && preorderItems == [] && nextPreorderId == 1)
                && (!senderOk ==> outcome == SendFailed && preorderItems == old(preorderItems)
                                  && nextPreorderId == old(nextPreorderId))
    {
      match Prepare(preorderItems) {
        case Rejected(reason) =>
          return None, reason;
        case Ready(data) =>
          sent := Some(data);
          if senderOk {
            preorderItems := [];
            nextPreorderId := 1;
            outcome := Submitted;
          } else {
            outcome := SendFailed;
          }
      }
    }
  }
}
