/** The discount manager of the admin dashboard (js/admin/discounts.js):
    discount records, their validation, and create, update and delete over
    the list. */
module AdminDiscounts {
  import opened Common
  import opened Numbers

  /** The raw fields of the discount form, as `FormData.get` returns them. */
  datatype DiscountForm = DiscountForm(name: string, kind: string, value: string, minOrder: string,
                                       maxDiscount: string, active: string, description: string,
                                       validFrom: string, validTo: string)

  /** `discountData` in `saveDiscount`; `None` stands for `null` and `NaN`. */
  datatype DiscountData = DiscountData(name: string, kind: string, value: Option<real>,
                                       minOrder: Option<real>, maxDiscount: Option<real>,
                                       active: bool, description: string,
                                       validFrom: string, validTo: string)

  datatype Discount = Discount(id: int, data: DiscountData, usageCount: int, totalSavings: real)

  /** The checks of `validateDiscountData`, in the order they run. */
  datatype DiscountError =
    | NameRequired | ValueNotPositive | PercentageOver100 | NegativeMinOrder | NegativeMaxDiscount

  function Rank(e: DiscountError): nat {
    match e
    case NameRequired => 0
    case ValueNotPositive => 1
    case PercentageOver100 => 2
    case NegativeMinOrder => 3
    case NegativeMaxDiscount => 4
  }

  predicate Truthy(v: Option<real>) {
    v.Some? && v.value != 0.0
  }

  /** Whether the check reported as `e` fails on `d`. */
  predicate Fails(d: DiscountData, e: DiscountError) {
    match e
    case NameRequired => IsBlank(d.name)
    case ValueNotPositive => !Truthy(d.value) || d.value.value <= 0.0
    case PercentageOver100 => d.kind == "percentage" && d.value.Some? && d.value.value > 100.0
    case NegativeMinOrder => Truthy(d.minOrder) && d.minOrder.value < 0.0
    case NegativeMaxDiscount => Truthy(d.maxDiscount) && d.maxDiscount.value < 0.0
  }

  /** The discounts the validation lets through, stated without the order
      of the checks. */
  predicate Acceptable(d: DiscountData) {
    !IsBlank(d.name)
    && d.value.Some? && d.value.value > 0.0
    && (d.kind == "percentage" ==> d.value.value <= 100.0)
    && (d.minOrder.None? || d.minOrder.value >= 0.0)
    && (d.maxDiscount.None? || d.maxDiscount.value >= 0.0)
  }

  /** `validateDiscountData(data)`: the first failing check, or `None`. */
  function ValidateDiscountData(d: DiscountData): (r: Option<DiscountError>)
    ensures r.Some? ==> Fails(d, r.value) && forall e :: Rank(e) < Rank(r.value) ==> !Fails(d, e)
    ensures r.None? <==> Acceptable(d)
  {
    if IsBlank(d.name) then Some(NameRequired)
    else if !Truthy(d.value) || d.value.value <= 0.0 then Some(ValueNotPositive)
    else if d.kind == "percentage" && d.value.value > 100.0 then Some(PercentageOver100)
    else if Truthy(d.minOrder) && d.minOrder.value < 0.0 then Some(NegativeMinOrder)
    else if Truthy(d.maxDiscount) && d.maxDiscount.value < 0.0 then Some(NegativeMaxDiscount)
    else None
  }

  function OptionalReal(text: string): (r: Option<real>)
    ensures text == "" ==> r.None?
    ensures text != "" ==> r == ParseDecimal(text)
  {
    if text == "" then None else ParseDecimal(text)
  }

  /** `discountData` as `saveDiscount` reads it: the numbers parsed, and
      `active` set only by the exact text "true". */
  function ReadForm(f: DiscountForm): (d: DiscountData)
    ensures d.active <==> f.active == "true"
    ensures d.name == f.name && d.value == ParseDecimal(f.value)
  {
    DiscountData(f.name, f.kind, ParseDecimal(f.value), OptionalReal(f.minOrder),
                 OptionalReal(f.maxDiscount), f.active == "true", f.description,
                 f.validFrom, f.validTo)
  }

  /** `validateDiscountForm()`: save is enabled iff a name is given and the
      value parses to a positive number. */
  function ValidateDiscountForm(name: string, value: string): (enabled: bool)
    ensures enabled <==> name != "" && ParseDecimal(value).Some? && ParseDecimal(value).value > 0.0
  {
    name != "" && value != "" && NumberOrZero(value) > 0.0
  }

  function IdIs(id: Option<int>): Discount -> bool {
    (x: Discount) => id == Some(x.id)
  }

  function IdIsNot(id: int): Discount -> bool {
    (x: Discount) => x.id != id
  }

  /** The record `createDiscount` pushes. */
  function NewDiscount(d: DiscountData, now: int): (x: Discount)
    ensures x.id == now && x.data == d && x.usageCount == 0 && x.totalSavings == 0.0
  {
    Discount(now, d, 0, 0.0)
  }

  /** `{...discount, ...discountData}`: the form's fields, `active`
      included, replaced; id and counters kept. */
  function Merge(d: DiscountData): Discount -> Discount {
    (x: Discount) => x.(data := d)
  }

  function UpdatedDiscounts(discounts: seq<Discount>, id: Option<int>, d: DiscountData): seq<Discount> {
    UpdateFirst(discounts, IdIs(id), Merge(d))
  }

  /** `discounts.filter(d => d.id !== discountId)` */
  function WithoutId(discounts: seq<Discount>, id: int): (r: seq<Discount>)
    ensures forall i :: 0 <= i < |r| ==> r[i].id != id && r[i] in discounts
    ensures forall i :: 0 <= i < |discounts| && discounts[i].id != id ==> discounts[i] in r
    ensures IsSubsequence(r, discounts)
  {
    FilterIsSubsequence(discounts, IdIsNot(id));
    FilterMembers(discounts, IdIsNot(id));
    Filter(discounts, IdIsNot(id))
  }

  /** An update replaces the data of the first discount with that id and
      changes nothing else; an absent id changes nothing. */
  lemma UpdateChangesOne(discounts: seq<Discount>, id: Option<int>, d: DiscountData)
    ensures var r := UpdatedDiscounts(discounts, id, d);
            |r| == |discounts|
            && (forall i :: 0 <= i < |discounts| && Some(discounts[i].id) != id ==> r[i] == discounts[i])
            && (forall i :: 0 <= i < |discounts| && Some(discounts[i].id) == id ==>
                  r[i] == discounts[i] || r[i] == discounts[i].(data := d))
            && ((forall i :: 0 <= i < |discounts| ==> Some(discounts[i].id) != id) ==> r == discounts)
  {
    match FindIndex(discounts, IdIs(id))
    case None =>
    case Some(k) =>
      assert UpdatedDiscounts(discounts, id, d) == discounts[k := Merge(d)(discounts[k])];
  }

  /** `getEditingDiscountId()` always answers `null`, so an edit changes
      nothing. */
  lemma EditIsNoOp(discounts: seq<Discount>, d: DiscountData)
    ensures UpdatedDiscounts(discounts, None, d) == discounts
  {
    assert FindIndex(discounts, IdIs(None)).None?;
  }

  class DiscountManager {
    var discounts: seq<Discount>

    constructor ()
      ensures discounts == []
    {
      discounts := [];
    }

    /** `createDiscount(discountData)`; `now` is `Date.now()`. */
    method CreateDiscount(d: DiscountData, now: int)
      modifies this
      ensures discounts == old(discounts) + [NewDiscount(d, now)]
    {
      discounts := discounts + [NewDiscount(d, now)];
    }

    /** `updateDiscount(discountId, discountData)` */
    method UpdateDiscount(discountId: Option<int>, d: DiscountData)
      modifies this
      ensures discounts == UpdatedDiscounts(old(discounts), discountId, d)
    {
      discounts := UpdatedDiscounts(discounts, discountId, d);
    }

    /** `deleteDiscount(discountId)`; `confirmed` is the answer to the
        confirmation dialog. */
    method DeleteDiscount(discountId: int, confirmed: bool)
      modifies this
      ensures discounts == if confirmed then WithoutId(old(discounts), discountId) else old(discounts)
    {
      if confirmed {
        discounts := WithoutId(discounts, discountId);
      }
    }

    /** `saveDiscount()`: an invalid form changes nothing; a valid one is
        created, or in edit mode applied to the discount being edited. */
    method SaveDiscount(form: DiscountForm, isEdit: bool, now: int) returns (error: Option<DiscountError>)
      modifies this
      ensures error == ValidateDiscountData(ReadForm(form))
      ensures error.Some? ==> discounts == old(discounts)
      ensures error.None? && !isEdit ==> discounts == old(discounts) + [NewDiscount(ReadForm(form), now)]
      ensures error.None? && isEdit ==> discounts == UpdatedDiscounts(old(discounts), None, ReadForm(form))
    {
      var d := ReadForm(form);
      error := ValidateDiscountData(d);
      if error.Some? {
        return;
      }
      if isEdit {
        UpdateDiscount(None, d);
      } else {
        CreateDiscount(d, now);
      }
    }
  }
}
