/** The coupon manager of the admin dashboard (js/admin/coupons.js): coupon
    records with a unique upper-case code, their validation, and create,
    update and delete over the list. */
module AdminCoupons {
  import opened Common
  import opened Numbers

  /** The raw fields of the coupon form, as `FormData.get` returns them. */
  datatype CouponForm = CouponForm(code: string, kind: string, value: string, minOrder: string,
                                   maxDiscount: string, usageLimit: string, description: string,
                                   validFrom: string, validTo: string)

  /** `couponData` in `saveCoupon`; `None` stands for `null` and for `NaN`. */
  datatype CouponData = CouponData(code: string, kind: string, value: Option<real>,
                                   minOrder: Option<real>, maxDiscount: Option<real>,
                                   usageLimit: Option<int>, description: string,
                                   validFrom: string, validTo: string)

  /** A stored coupon: the fields a save supplies, and those kept by the
      store itself. */
  datatype Coupon = Coupon(id: int, data: CouponData, usedCount: int, totalSavings: real, active: bool)

  /** The checks of `validateCouponData`, in the order they run, and the
      duplicate-code check of `saveCoupon`. */
  datatype CouponError =
    | CodeRequired | CodeTooShort | ValueNotPositive | PercentageOver100
    | NegativeMinOrder | NegativeMaxDiscount | UsageLimitNotPositive | CodeExists

  datatype SaveOutcome = Rejected(error: CouponError) | Saved

  function Rank(e: CouponError): nat {
    match e
    case CodeRequired => 0
    case CodeTooShort => 1
    case ValueNotPositive => 2
    case PercentageOver100 => 3
    case NegativeMinOrder => 4
    case NegativeMaxDiscount => 5
    case UsageLimitNotPositive => 6
    case CodeExists => 7
  }

  /** A number is truthy when it is present, not `NaN` and not 0. */
  predicate Truthy(v: Option<real>) {
    v.Some? && v.value != 0.0
  }

  predicate TruthyInt(v: Option<int>) {
    v.Some? && v.value != 0
  }

  /** Whether the check reported as `e` fails on `d`, with the usage-limit
      check guarded by truthiness as written. */
  predicate Fails(d: CouponData, e: CouponError) {
    match e
    case CodeRequired => IsBlank(d.code)
    case CodeTooShort => |d.code| < 3
    case ValueNotPositive => !Truthy(d.value) || d.value.value <= 0.0
    case PercentageOver100 => d.kind == "percentage" && d.value.Some? && d.value.value > 100.0
    case NegativeMinOrder => Truthy(d.minOrder) && d.minOrder.value < 0.0
    case NegativeMaxDiscount => Truthy(d.maxDiscount) && d.maxDiscount.value < 0.0
    case UsageLimitNotPositive => TruthyInt(d.usageLimit) && d.usageLimit.value <= 0
    case CodeExists => false
  }

  /** The coupons the validation means to let through, stated without the
      order of the checks: a code of 3 or more non-blank characters, a
      positive value (at most 100 for a percentage), no negative bounds, and
      a usage limit that is absent or positive. */
  predicate Acceptable(d: CouponData) {
    !IsBlank(d.code) && |d.code| >= 3
    && d.value.Some? && d.value.value > 0.0
    && (d.kind == "percentage" ==> d.value.value <= 100.0)
    && (d.minOrder.None? || d.minOrder.value >= 0.0)
    && (d.maxDiscount.None? || d.maxDiscount.value >= 0.0)
    && (d.usageLimit.None? || d.usageLimit.value >= 1)
  }

  /** `validateCouponData(data)` as written: the first failing check, or
      `None` when all pass. A usage limit of 0 is falsy and slips through. */
  function ValidateCouponData(d: CouponData): (r: Option<CouponError>)
    ensures r.Some? ==> Fails(d, r.value) && forall e :: Rank(e) < Rank(r.value) ==> !Fails(d, e)
    ensures r.None? <==> Acceptable(d) || (Acceptable(d.(usageLimit := None)) && d.usageLimit == Some(0))
  {
    if IsBlank(d.code) then Some(CodeRequired)
    else if |d.code| < 3 then Some(CodeTooShort)
    else if !Truthy(d.value) || d.value.value <= 0.0 then Some(ValueNotPositive)
    else if d.kind == "percentage" && d.value.value > 100.0 then Some(PercentageOver100)
    else if Truthy(d.minOrder) && d.minOrder.value < 0.0 then Some(NegativeMinOrder)
    else if Truthy(d.maxDiscount) && d.maxDiscount.value < 0.0 then Some(NegativeMaxDiscount)
    else if TruthyInt(d.usageLimit) && d.usageLimit.value <= 0 then Some(UsageLimitNotPositive)
    else None
  }

  /** The validation with the usage-limit check the message asks for: a
      limit that is present must be greater than 0. */
  function ValidateCouponDataIntended(d: CouponData): (r: Option<CouponError>)
    ensures r.None? <==> Acceptable(d)
    ensures r.Some? && r.value != UsageLimitNotPositive ==> r == ValidateCouponData(d)
    ensures ValidateCouponData(d).Some? ==> r == ValidateCouponData(d)
  {
    match ValidateCouponData(d)
    case Some(e) => Some(e)
    case None => if d.usageLimit.Some? && d.usageLimit.value <= 0 then Some(UsageLimitNotPositive) else None
  }

  /** The usage percentage on a coupon card, `Math.round(usedCount /
      usageLimit * 100)`; `None` where that is `NaN` or infinite (no limit,
      or a limit of 0). */
  function UsagePercentage(usedCount: int, usageLimit: Option<int>): (r: Option<int>)
    ensures r.Some? <==> usageLimit.Some? && usageLimit.value != 0
    ensures r.Some? && 0 <= usedCount <= usageLimit.value ==> 0 <= r.value <= 100
  {
    match usageLimit
    case None => None
    case Some(limit) =>
      if limit == 0 then None
      else
        var x := usedCount as real / limit as real * 100.0;
        assert 0 <= usedCount <= limit ==> 0.0 <= x <= 100.0 by {
          if 0 <= usedCount <= limit {
            UnitFraction(usedCount, limit);
          }
        }
        Some(Round(x))
  }

  lemma UnitFraction(a: int, b: int)
    requires 0 <= a <= b && b != 0
    ensures 0.0 <= a as real / b as real <= 1.0
  {
    var q := a as real / b as real;
    assert q * b as real == a as real;
  }

  /** A usage limit of 0 passes the validation as written, and the card of
      such a coupon has no percentage to show; the intended check rejects
      it. */
  lemma ZeroUsageLimitAccepted()
    ensures var d := CouponData("FREE50", "fixed", Some(50.0), None, None, Some(0), "", "", "");
            ValidateCouponData(d) == None
            && UsagePercentage(0, d.usageLimit) == None
            && ValidateCouponDataIntended(d) == Some(UsageLimitNotPositive)
  {
    var d := CouponData("FREE50", "fixed", Some(50.0), None, None, Some(0), "", "", "");
    assert !IsBlank(d.code) by {
      assert !IsSpace(d.code[0]);
    }
  }

  /** A coupon accepted by the intended validation always has a percentage
      to show when it has a limit, and while fewer uses than the limit were
      made it lies in [0, 100]. */
  lemma AcceptedHasPercentage(d: CouponData, usedCount: int)
    requires ValidateCouponDataIntended(d) == None && d.usageLimit.Some?
    ensures UsagePercentage(usedCount, d.usageLimit).Some?
    ensures 0 <= usedCount <= d.usageLimit.value ==> 0 <= UsagePercentage(usedCount, d.usageLimit).value <= 100
  {
  }

  /** Optional numeric field: `value ? parse(value) : null`. */
  function OptionalReal(text: string): (r: Option<real>)
    ensures text == "" ==> r.None?
    ensures text != "" ==> r == ParseDecimal(text)
  {
    if text == "" then None else ParseDecimal(text)
  }

  function OptionalInt(text: string): (r: Option<int>)
    ensures text == "" ==> r.None?
    ensures text != "" ==> r == ParseInt(text)
  {
    if text == "" then None else ParseInt(text)
  }

  /** `couponData` as `saveCoupon` reads it from the form: the code in upper
      case, the numbers parsed. */
  function ReadForm(f: CouponForm): (d: CouponData)
    ensures |d.code| == |f.code| && forall i :: 0 <= i < |d.code| ==> !('a' <= d.code[i] <= 'z')
    ensures d.value == ParseDecimal(f.value)
  {
    CouponData(ToUpper(f.code), f.kind, ParseDecimal(f.value), OptionalReal(f.minOrder),
               OptionalReal(f.maxDiscount), OptionalInt(f.usageLimit), f.description,
               f.validFrom, f.validTo)
  }

  /** `validateCouponForm()`: the save button is enabled iff the code has at
      least 3 characters and the value parses to a positive number. */
  function ValidateCouponForm(code: string, value: string): (enabled: bool)
    ensures enabled <==> |code| >= 3 && ParseDecimal(value).Some? && ParseDecimal(value).value > 0.0
  {
    code != "" && |code| >= 3 && value != "" && NumberOrZero(value) > 0.0
  }

  function CodeOf(c: Coupon): string {
    c.data.code
  }

  function HasCode(code: string): Coupon -> bool {
    (c: Coupon) => c.data.code == code
  }

  function IdIs(id: Option<int>): Coupon -> bool {
    (c: Coupon) => id == Some(c.id)
  }

  function IdIsNot(id: int): Coupon -> bool {
    (c: Coupon) => c.id != id
  }

  /** `coupons.find(c => c.code === code)` finds a coupon. */
  predicate Taken(coupons: seq<Coupon>, code: string) {
    exists i :: 0 <= i < |coupons| && coupons[i].data.code == code
  }

  /** The record `createCoupon` pushes. */
  function NewCoupon(d: CouponData, now: int): (c: Coupon)
    ensures c.data == d && c.id == now
    ensures c.usedCount == 0 && c.totalSavings == 0.0 && c.active
  {
    Coupon(now, d, 0, 0.0, true)
  }

  /** `{...coupon, ...couponData}`: every field of the form replaced, the
      id, the counters and the active flag kept. */
  function Merge(d: CouponData): Coupon -> Coupon {
    (c: Coupon) => c.(data := d)
  }

  /** `updateCoupon(id, couponData)` over the list. */
  function UpdatedCoupons(coupons: seq<Coupon>, id: Option<int>, d: CouponData): seq<Coupon> {
    UpdateFirst(coupons, IdIs(id), Merge(d))
  }

  /** `coupons.filter(c => c.id !== couponId)` */
  function WithoutId(coupons: seq<Coupon>, id: int): (r: seq<Coupon>)
    ensures forall i :: 0 <= i < |r| ==> r[i].id != id && r[i] in coupons
    ensures forall i :: 0 <= i < |coupons| && coupons[i].id != id ==> coupons[i] in r
    ensures IsSubsequence(r, coupons)
  {
    FilterIsSubsequence(coupons, IdIsNot(id));
    FilterMembers(coupons, IdIsNot(id));
    Filter(coupons, IdIsNot(id))
  }

  /** An update changes only the data of the first coupon with that id; an
      absent id changes nothing. */
  lemma UpdateChangesOne(coupons: seq<Coupon>, id: Option<int>, d: CouponData)
    ensures var r := UpdatedCoupons(coupons, id, d);
            |r| == |coupons|
            && (forall i :: 0 <= i < |coupons| && Some(coupons[i].id) != id ==> r[i] == coupons[i])
            && (forall i :: 0 <= i < |coupons| && Some(coupons[i].id) == id ==>
                  r[i] == coupons[i] || r[i] == coupons[i].(data := d))
            && ((forall i :: 0 <= i < |coupons| ==> Some(coupons[i].id) != id) ==> r == coupons)
  {
    match FindIndex(coupons, IdIs(id))
    case None =>
    case Some(k) =>
      assert UpdatedCoupons(coupons, id, d) == coupons[k := Merge(d)(coupons[k])];
  }

  /** The edit mode of `saveCoupon` asks `getEditingCouponId()`, which always
      answers `null`: no coupon has that id, so an edit changes nothing. */
  lemma EditIsNoOp(coupons: seq<Coupon>, d: CouponData)
    ensures UpdatedCoupons(coupons, None, d) == coupons
  {
    assert FindIndex(coupons, IdIs(None)).None?;
  }

  /** Codes stay unique when a coupon with a new code is added, or when one
      coupon's data is replaced by data whose code no coupon has. */
  lemma SaveKeepsCodesDistinct(coupons: seq<Coupon>, id: Option<int>, d: CouponData, now: int)
    requires forall i :: 0 <= i < |coupons| ==> coupons[i].data.code != d.code
    ensures DistinctKeys(coupons, CodeOf) ==> DistinctKeys(coupons + [NewCoupon(d, now)], CodeOf)
    ensures DistinctKeys(coupons, CodeOf) ==> DistinctKeys(UpdatedCoupons(coupons, id, d), CodeOf)
  {
    if !DistinctKeys(coupons, CodeOf) {
      return;
    }
    AppendDistinct(coupons, NewCoupon(d, now), CodeOf);
    match FindIndex(coupons, IdIs(id))
    case None =>
    case Some(k) =>
      ReplaceDistinct(coupons, k, Merge(d)(coupons[k]), CodeOf);
  }

  /** Deleting keeps codes unique. */
  lemma DeleteKeepsCodesDistinct(coupons: seq<Coupon>, id: int)
    ensures DistinctKeys(coupons, CodeOf) ==> DistinctKeys(WithoutId(coupons, id), CodeOf)
  {
    if DistinctKeys(coupons, CodeOf) {
      FilterDistinctKeys(coupons, IdIsNot(id), CodeOf);
    }
  }

  class CouponManager {
    var coupons: seq<Coupon>

    constructor ()
      ensures coupons == []
    {
      coupons := [];
    }

    /** `createCoupon(couponData)`; `now` is `Date.now()`. */
    method CreateCoupon(d: CouponData, now: int)
      modifies this
      ensures coupons == old(coupons) + [NewCoupon(d, now)]
    {
      coupons := coupons + [NewCoupon(d, now)];
    }

    /** `updateCoupon(couponId, couponData)` */
    method UpdateCoupon(couponId: Option<int>, d: CouponData)
      modifies this
      ensures coupons == UpdatedCoupons(old(coupons), couponId, d)
    {
      coupons := UpdatedCoupons(coupons, couponId, d);
    }

    /** `deleteCoupon(couponId)`; `confirmed` is the answer to the
        confirmation dialog. */
    method DeleteCoupon(couponId: int, confirmed: bool)
      modifies this
      ensures coupons == if confirmed then WithoutId(old(coupons), couponId) else old(coupons)
      ensures DistinctKeys(old(coupons), CodeOf) ==> DistinctKeys(coupons, CodeOf)
    {
      if !confirmed {
        return;
      }
      DeleteKeepsCodesDistinct(coupons, couponId);
      coupons := WithoutId(coupons, couponId);
    }

    /** `saveCoupon()`: the form is read and validated, a code that some
        coupon already has is refused, and the coupon is then created, or in
        edit mode updated. `isEdit` is whether the dialog title says "Edit". */
    method SaveCoupon(form: CouponForm, isEdit: bool, now: int) returns (outcome: SaveOutcome)
      modifies this
      ensures var check := ValidateCouponDataIntended(ReadForm(form));
              check.Some? ==> outcome == Rejected(check.value) && coupons == old(coupons)
      ensures var d := ReadForm(form);
              ValidateCouponDataIntended(d).None? && Taken(old(coupons), d.code) ==>
                outcome == Rejected(CodeExists) && coupons == old(coupons)
      ensures var d := ReadForm(form);
              ValidateCouponDataIntended(d).None? && !Taken(old(coupons), d.code) ==>
                outcome == Saved && coupons == if isEdit then UpdatedCoupons(old(coupons), None, d)
                                               else old(coupons) + [NewCoupon(d, now)]
      ensures DistinctKeys(old(coupons), CodeOf) ==> DistinctKeys(coupons, CodeOf)
    {
      var d := ReadForm(form);
      var check := ValidateCouponDataIntended(d);
      if check.Some? {
        return Rejected(check.value);
      }
      if Find(coupons, HasCode(d.code)).Some? {
        assert Taken(coupons, d.code);
        return Rejected(CodeExists);
      }
      SaveKeepsCodesDistinct(coupons, None, d, now);
      if isEdit {
        UpdateCoupon(None, d);
      } else {
        CreateCoupon(d, now);
      }
      outcome := Saved;
    }
  }
}
