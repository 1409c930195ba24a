/** The broker's price-inquiry draft (dist/js/modules/inquiry.js): numbered
    lines, each a catalog product with its list price and the price the
    customer offers, submitted together through the WhatsApp service. */
module Inquiry {
  import opened Common
  import opened Numbers
  import opened Catalog

  datatype InquiryItem = InquiryItem(id: int, productId: string, product: Option<Product>,
                                     originalPrice: real, bargainPrice: real, difference: real)

  /** One entry of the payload handed to `sendInquiryForm`. */
  datatype InquiryLine = InquiryLine(product: Option<Product>, originalPrice: real, bargainPrice: real)

  datatype InquiryData = InquiryData(brokerName: string, brokerEmail: string,
                                     items: seq<InquiryLine>, totalOriginal: real,
                                     totalBargain: real)

  datatype SubmitOutcome = NothingToSubmit | Incomplete | Submitted | SendFailed

  datatype Prepared = Rejected(reason: SubmitOutcome) | Ready(data: InquiryData)

  function InquiryId(q: InquiryItem): int {
    q.id
  }

  function OriginalPrice(q: InquiryItem): real {
    q.originalPrice
  }

  function BargainPrice(q: InquiryItem): real {
    q.bargainPrice
  }

  /** The stored difference is the offer less the list price. */
  predicate Balanced(q: InquiryItem) {
    q.difference == q.bargainPrice - q.originalPrice
  }

  predicate Good(items: seq<InquiryItem>, nextId: int) {
    nextId >= 1
    && DistinctKeys(items, InquiryId)
    && (forall i :: 0 <= i < |items| ==> items[i].id < nextId && Balanced(items[i]))
  }

  /** The line `addInquiry` appends. */
  function Blank(id: int): (q: InquiryItem)
    ensures q.id == id && q.productId == "" && q.product.None?
    ensures q.originalPrice == 0.0 && q.bargainPrice == 0.0 && q.difference == 0.0
  {
    InquiryItem(id, "", None, 0.0, 0.0, 0.0)
  }

  function HasId(id: int): InquiryItem -> bool {
    (q: InquiryItem) => q.id == id
  }

  function IdIsNot(id: int): InquiryItem -> bool {
    (q: InquiryItem) => q.id != id
  }

  /** `inquiryItems.filter(inquiry => inquiry.id !== inquiryId)` */
  function WithoutId(items: seq<InquiryItem>, id: int): (r: seq<InquiryItem>)
    ensures forall i :: 0 <= i < |r| ==> r[i].id != id && r[i] in items
    ensures forall i :: 0 <= i < |items| && items[i].id != id ==> items[i] in r
    ensures IsSubsequence(r, items)
  {
    FilterIsSubsequence(items, IdIsNot(id));
    FilterMembers(items, IdIsNot(id));
    Filter(items, IdIsNot(id))
  }

  /** A product chosen: the list price is its catalog price, or 0 when the id
      is unknown. */
  function WithProduct(products: seq<Product>, value: string, q: InquiryItem): (r: InquiryItem)
    ensures r.productId == value && r.product == Lookup(products, value)
    ensures r.originalPrice == PriceOf(products, value) && Balanced(r)
    ensures r.(productId := q.productId, product := q.product, originalPrice := q.originalPrice,
               difference := q.difference) == q
  {
    var price := PriceOf(products, value);
    q.(productId := value, product := Lookup(products, value), originalPrice := price,
       difference := q.bargainPrice - price)
  }

  /** An offer typed: `parseFloat(value) || 0`, and the difference recomputed. */
  function WithBargain(value: string, q: InquiryItem): (r: InquiryItem)
    ensures r.bargainPrice == NumberOrZero(value) && Balanced(r)
    ensures r.(bargainPrice := q.bargainPrice, difference := q.difference) == q
  {
    var b := NumberOrZero(value);
    q.(bargainPrice := b, difference := b - q.originalPrice)
  }

  /** The effect of `updateInquiry(id, field, value)` on the line it finds. */
  function Updated(products: seq<Product>, field: string, value: string, q: InquiryItem): (r: InquiryItem)
    ensures r.id == q.id
    ensures field == "productId" ==> r == WithProduct(products, value, q)
    ensures field == "bargainPrice" ==> r == WithBargain(value, q)
    ensures Balanced(q) ==> Balanced(r)
  {
    if field == "productId" then WithProduct(products, value, q)
    else if field == "bargainPrice" then WithBargain(value, q)
    else q
  }

  function Updater(products: seq<Product>, field: string, value: string): InquiryItem -> InquiryItem {
    (q: InquiryItem) => Updated(products, field, value, q)
  }

  /** `updateInquiry(id, field, value)` over the whole list. */
  function UpdatedItems(items: seq<InquiryItem>, products: seq<Product>, id: int,
                        field: string, value: string): seq<InquiryItem> {
    UpdateFirst(items, HasId(id), Updater(products, field, value))
  }

  /** `getPriceDifferenceClass(difference)` */
  function DifferenceClass(difference: real): (c: string)
    ensures c == "negative" <==> difference < 0.0
    ensures c == "positive" <==> difference > 0.0
    ensures c == "neutral" <==> difference == 0.0
  {
    if difference < 0.0 then "negative"
    else if difference > 0.0 then "positive"
    else "neutral"
  }

  /** The sign that `formatPriceDifference` puts before the amount. */
  function SignPrefix(difference: real): (s: string)
    ensures s == "-" <==> difference < 0.0
    ensures s == "+" <==> difference > 0.0
    ensures s == "" <==> difference == 0.0
  {
    if difference < 0.0 then "-" else if difference > 0.0 then "+" else ""
  }

  function Abs(x: real): (a: real)
    ensures a >= 0.0 && (a == x || a == -x)
  {
    if x < 0.0 then -x else x
  }

  /** `formatPriceDifference(difference)`; `fmt` stands for the two-decimal
      `toLocaleString` of the magnitude. */
  function FormatPriceDifference(difference: real, fmt: real -> string): (t: string)
    ensures difference < 0.0 ==> t == "-KES " + fmt(-difference)
    ensures difference > 0.0 ==> t == "+KES " + fmt(difference)
    ensures difference == 0.0 ==> t == "KES " + fmt(0.0)
  {
    SignPrefix(difference) + "KES " + fmt(Abs(difference))
  }

  /** The sign shown and the class given always agree, and a difference and
      its opposite are shown with the same amount. */
  lemma SignMatchesClass(difference: real, fmt: real -> string)
    ensures SignPrefix(difference) == "-" <==> DifferenceClass(difference) == "negative"
    ensures SignPrefix(difference) == "+" <==> DifferenceClass(difference) == "positive"
    ensures SignPrefix(difference) == "" <==> DifferenceClass(difference) == "neutral"
    ensures FormatPriceDifference(difference, fmt)[|SignPrefix(difference)|..]
         == FormatPriceDifference(-difference, fmt)[|SignPrefix(-difference)|..]
  {
    assert Abs(difference) == Abs(-difference);
  }

  predicate IsIncomplete(q: InquiryItem) {
    q.productId == "" || q.bargainPrice <= 0.0
  }

  function PayloadLine(q: InquiryItem): InquiryLine {
    InquiryLine(q.product, q.originalPrice, q.bargainPrice)
  }

  /** The checks and the payload of `submitInquiries`. */
  function Prepare(items: seq<InquiryItem>): (r: Prepared)
    ensures items == [] ==> r == Rejected(NothingToSubmit)
    ensures items != [] && (exists i :: 0 <= i < |items| && IsIncomplete(items[i])) ==>
              r == Rejected(Incomplete)
    ensures r.Ready? <==> items != [] && forall i :: 0 <= i < |items| ==> !IsIncomplete(items[i])
    ensures r.Ready? ==>
              |r.data.items| == |items|
              && r.data.totalOriginal == Sum(items, OriginalPrice)
              && r.data.totalBargain == Sum(items, BargainPrice)
              && forall i :: 0 <= i < |items| ==> r.data.items[i] == PayloadLine(items[i])
  {
    FilterMembers(items, IsIncomplete);
    if |items| == 0 then Rejected(NothingToSubmit)
    else if Filter(items, IsIncomplete) != [] then
      assert exists i :: 0 <= i < |items| && IsIncomplete(items[i]) by {
        var w := Filter(items, IsIncomplete)[0];
        var i :| 0 <= i < |items| && items[i] == w;
      }
      Rejected(Incomplete)
    else
      Ready(InquiryData("Broker User", "broker@eastleighturf.com",
                        seq(|items|, i requires 0 <= i < |items| => PayloadLine(items[i])),
                        Sum(items, OriginalPrice), Sum(items, BargainPrice)))
  }

  /** Every offer of a sendable draft is positive, so the offers total more
      than zero. */
  lemma ReadyBargainPositive(items: seq<InquiryItem>)
    requires Prepare(items).Ready?
    ensures Prepare(items).data.totalBargain > 0.0
  {
    assert !IsIncomplete(items[0]);
    SumNonNegative(items[1..], BargainPrice);
  }

  lemma AddKeepsGood(items: seq<InquiryItem>, next: int)
    requires Good(items, next)
    ensures Good(items + [Blank(next)], next + 1)
  {
    var s := items + [Blank(next)];
    forall i, j | 0 <= i < j < |s|
      ensures InquiryId(s[i]) != InquiryId(s[j])
    {
      if j < |items| {
        assert InquiryId(items[i]) != InquiryId(items[j]);
      }
    }
  }

  lemma RemoveKeepsGood(items: seq<InquiryItem>, next: int, id: int)
    requires Good(items, next)
    ensures Good(WithoutId(items, id), next)
  {
    FilterDistinctKeys(items, IdIsNot(id), InquiryId);
  }

  /** An update keeps every difference in step and touches the one line with
      that id. */
  lemma UpdateKeepsGood(items: seq<InquiryItem>, next: int, products: seq<Product>, id: int,
                        field: string, value: string)
    requires Good(items, next)
    ensures Good(UpdatedItems(items, products, id, field, value), next)
    ensures forall k :: 0 <= k < |items| && items[k].id == id ==>
              UpdatedItems(items, products, id, field, value) == items[k := Updated(products, field, value, items[k])]
  {
    match FindIndex(items, HasId(id))
    case None =>
    case Some(k) =>
      var s := UpdatedItems(items, products, id, field, value);
      assert s == items[k := Updated(products, field, value, items[k])];
      forall i, j | 0 <= i < j < |s|
        ensures InquiryId(s[i]) != InquiryId(s[j])
      {
        assert InquiryId(items[i]) != InquiryId(items[j]);
      }
  }

  lemma UpdateNoOp(items: seq<InquiryItem>, products: seq<Product>, id: int, field: string, value: string)
    requires (forall i :: 0 <= i < |items| ==> items[i].id != id)
             || (field != "productId" && field != "bargainPrice")
    ensures UpdatedItems(items, products, id, field, value) == items
  {
    match FindIndex(items, HasId(id))
    case None =>
    case Some(k) =>
      assert Updater(products, field, value)(items[k]) == items[k];
  }

  class InquiryDraft {
    var products: seq<Product>
    var inquiryItems: seq<InquiryItem>
    var nextInquiryId: int

    ghost predicate Valid()
      reads this
    {
      Good(inquiryItems, nextInquiryId)
    }

    constructor (catalog: seq<Product>)
      ensures Valid() && products == catalog && inquiryItems == [] && nextInquiryId == 1
    {
      products := catalog;
      inquiryItems := [];
      nextInquiryId := 1;
    }

    /** `getItemCount()` */
    function GetItemCount(): (n: nat)
      reads this
      ensures n == |inquiryItems|
    {
      |inquiryItems|
    }

    /** `addInquiry()` */
    method AddInquiry()
      requires Valid()
      modifies this
      ensures Valid()
      ensures inquiryItems == old(inquiryItems) + [Blank(old(nextInquiryId))]
      ensures nextInquiryId == old(nextInquiryId) + 1 && products == old(products)
      ensures GetItemCount() == old(GetItemCount()) + 1
    {
      AddKeepsGood(inquiryItems, nextInquiryId);
      inquiryItems := inquiryItems + [Blank(nextInquiryId)];
      nextInquiryId := nextInquiryId + 1;
    }

    /** `removeInquiry(inquiryId)` */
    method RemoveInquiry(inquiryId: int)
      requires Valid()
      modifies this
      ensures Valid()
      ensures inquiryItems == WithoutId(old(inquiryItems), inquiryId)
      ensures nextInquiryId == old(nextInquiryId) && products == old(products)
    {
      RemoveKeepsGood(inquiryItems, nextInquiryId, inquiryId);
      inquiryItems := WithoutId(inquiryItems, inquiryId);
    }

    /** `updateInquiry(inquiryId, field, value)` */
    method UpdateInquiry(inquiryId: int, field: string, value: string)
      requires Valid()
      modifies this
      ensures Valid()
      ensures inquiryItems == UpdatedItems(old(inquiryItems), products, inquiryId, field, value)
      ensures nextInquiryId == old(nextInquiryId) && products == old(products)
    {
      UpdateKeepsGood(inquiryItems, nextInquiryId, products, inquiryId, field, value);
      inquiryItems := UpdatedItems(inquiryItems, products, inquiryId, field, value);
    }

    /** `submitInquiries()`: `senderOk` is what `sendInquiryForm` returns. */
    method SubmitInquiries(senderOk: bool) returns (sent: Option<InquiryData>, outcome: SubmitOutcome)
      requires Valid()
      modifies this
      ensures Valid() && products == old(products)
      ensures Prepare(old(inquiryItems)).Rejected? ==>
                sent.None? && outcome == Prepare(old(inquiryItems)).reason
                && inquiryItems == old(inquiryItems) && nextInquiryId == old(nextInquiryId)
      ensures Prepare(old(inquiryItems)).Ready? ==>
                sent == Some(Prepare(old(inquiryItems)).data)
                && (senderOk ==> outcome == Submitted && inquiryItems == [] && nextInquiryId == 1)
                && (!senderOk ==> outcome == SendFailed && inquiryItems == old(inquiryItems)
                                  && nextInquiryId == old(nextInquiryId))
    {
      match Prepare(inquiryItems) {
        case Rejected(reason) =>
          return None, reason;
        case Ready(data) =>
          sent := Some(data);
          if senderOk {
            inquiryItems := [];
            nextInquiryId := 1;
            outcome := Submitted;
          } else {
            outcome := SendFailed;
          }
      }
    }
  }
}
