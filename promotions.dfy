/** The promotion request schemas and the discount arithmetic of the validation
    endpoints (backend/app/blueprints/promotion_api.py). Decimal amounts are whole
    hundredths; money is whole cents. The coupon and gift-card services are not
    modelled: what they answer is a parameter. */
module Promotions {
  import opened Wrappers
  import opened Json
  import opened Text

  /** One schema error: the field it is filed under (`_schema` for a whole-schema error)
      and its message. */
  datatype SchemaError = SchemaError(field: string, message: string)

  // ---------------------------------------------------------------------------
  // CouponCreateSchema
  // ---------------------------------------------------------------------------

  /** A coupon request after type conversion; `discountValue` in hundredths. */
  datatype CouponDraft = CouponDraft(
    code: string,
    name: string,
    discountType: string,
    discountValue: int,
    currencyCode: string,
    maxUses: Option<int>,
    maxUsesPerCustomer: int,
    validFrom: Option<int>,
    validUntil: Option<int>,
    minimumAmountCents: Option<int>,
    maximumDiscountCents: Option<int>)

  /** 100% in hundredths. */
  const HundredPercent: int := 10000

  function LengthError(field: string, s: string, lo: nat, hi: nat): seq<SchemaError> {
    if lo <= |s| <= hi then []
    else [SchemaError(field, "Length must be between " + NatToString(lo) + " and " + NatToString(hi) + ".")]
  }

  function AtLeast(field: string, v: Option<int>, lo: int): seq<SchemaError> {
    if v.None? || v.value >= lo then [] else [SchemaError(field, "Must be greater than or equal to " + IntToString(lo) + ".")]
  }

  /** The field validators: lengths, the discount type, the minimums. */
  function CouponFieldErrors(d: CouponDraft): (r: seq<SchemaError>)
    ensures r == [] <==>
              1 <= |d.code| <= 50 && 1 <= |d.name| <= 255 && d.discountType in {"percentage", "fixed_amount"} &&
              |d.currencyCode| == 3 && (d.maxUses.None? || d.maxUses.value >= 1) && d.maxUsesPerCustomer >= 1 &&
              (d.minimumAmountCents.None? || d.minimumAmountCents.value >= 0) &&
              (d.maximumDiscountCents.None? || d.maximumDiscountCents.value >= 1)
  {
    LengthError("code", d.code, 1, 50)
    + LengthError("name", d.name, 1, 255)
    + (if d.discountType in {"percentage", "fixed_amount"} then []
       else [SchemaError("discount_type", "Must be one of: percentage, fixed_amount.")])
    + (if |d.currencyCode| == 3 then [] else [SchemaError("currency_code", "Length must be 3.")])
    + AtLeast("max_uses", d.maxUses, 1)
    + AtLeast("max_uses_per_customer", Some(d.maxUsesPerCustomer), 1)
    + AtLeast("minimum_amount_cents", d.minimumAmountCents, 0)
    + AtLeast("maximum_discount_cents", d.maximumDiscountCents, 1)
  }

  /** `validate_discount_value`: the percentage cap is checked first and ends the check. */
  function DiscountValueErrors(d: CouponDraft): (r: seq<SchemaError>)
    ensures |r| <= 1
    ensures r == [] <==> 0 < d.discountValue && (d.discountType == "percentage" ==> d.discountValue <= HundredPercent)
  {
    if d.discountType == "percentage" && d.discountValue > HundredPercent then
      [SchemaError("discount_value", "Percentage discount cannot exceed 100%")]
    else if d.discountValue <= 0 then [SchemaError("discount_value", "Discount value must be positive")]
    else []
  }

  /** `validate_validity_period`: only when both ends are given. */
  function ValidityErrors(d: CouponDraft): (r: seq<SchemaError>)
    ensures r == [] <==> d.validFrom.None? || d.validUntil.None? || d.validUntil.value > d.validFrom.value
  {
    if d.validFrom.Some? && d.validUntil.Some? && d.validUntil.value <= d.validFrom.value then
      [SchemaError("valid_until", "valid_until must be after valid_from")]
    else []
  }

  /** Loading the schema: field errors first; the schema validators run only when the
      fields are clean, and each reports its error independently. */
  function LoadCoupon(d: CouponDraft): (r: Result<CouponDraft, seq<SchemaError>>)
    ensures r.Ok? ==> r.value == d
    ensures r.Err? ==> r.error != []
  {
    var fieldErrors := CouponFieldErrors(d);
    if fieldErrors != [] then Err(fieldErrors)
    else
      var schemaErrors := DiscountValueErrors(d) + ValidityErrors(d);
      if schemaErrors != [] then Err(schemaErrors) else Ok(d)
  }

  /** A loaded coupon has a positive discount, at most 100% for a percentage, and a
      validity period that ends after it starts. */
  lemma LoadedCouponIsSound(d: CouponDraft)
    requires LoadCoupon(d).Ok?
    ensures 0 < d.discountValue
    ensures d.discountType == "percentage" ==> d.discountValue <= HundredPercent
    ensures d.validFrom.Some? && d.validUntil.Some? ==> d.validFrom.value < d.validUntil.value
    ensures d.discountType == "percentage" || d.discountType == "fixed_amount"
  {
  }

  /** Conversely, a draft with clean fields and those three properties loads. */
  lemma SoundCouponLoads(d: CouponDraft)
    requires CouponFieldErrors(d) == []
    requires 0 < d.discountValue && (d.discountType == "percentage" ==> d.discountValue <= HundredPercent)
    requires d.validFrom.None? || d.validUntil.None? || d.validFrom.value < d.validUntil.value
    ensures LoadCoupon(d) == Ok(d)
  {
  }

  /** A draft with both a bad discount and a bad period reports both. */
  lemma SchemaErrorsAccumulate(d: CouponDraft)
    requires CouponFieldErrors(d) == []
    requires d.discountValue <= 0
    requires d.validFrom.Some? && d.validUntil.Some? && d.validUntil.value <= d.validFrom.value
    ensures LoadCoupon(d) == Err([SchemaError("discount_value", "Discount value must be positive"),
                                  SchemaError("valid_until", "valid_until must be after valid_from")])
  {
    assert DiscountValueErrors(d) == [SchemaError("discount_value", "Discount value must be positive")];
    assert ValidityErrors(d) == [SchemaError("valid_until", "valid_until must be after valid_from")];
    assert [SchemaError("discount_value", "Discount value must be positive")] +
           [SchemaError("valid_until", "valid_until must be after valid_from")] ==
           [SchemaError("discount_value", "Discount value must be positive"),
            SchemaError("valid_until", "valid_until must be after valid_from")];
  }

  // ---------------------------------------------------------------------------
  // PromotionApplySchema
  // ---------------------------------------------------------------------------

  /** The promotion an apply request names. */
  datatype Choice = CouponChoice(couponCode: string) | GiftCardChoice(giftCardCode: string)

  /** `validate_promotion_required`: a code counts when it is present and non-empty. */
  function ChoosePromotion(couponCode: Option<string>, giftCardCode: Option<string>): (r: Result<Choice, SchemaError>)
    ensures r.Ok? <==> ((couponCode.Some? && couponCode.value != "") != (giftCardCode.Some? && giftCardCode.value != ""))
    ensures r.Ok? && r.value.CouponChoice? ==> couponCode == Some(r.value.couponCode)
    ensures r.Ok? && r.value.GiftCardChoice? ==> giftCardCode == Some(r.value.giftCardCode)
  {
    var hasCoupon := couponCode.Some? && couponCode.value != "";
    var hasGiftCard := giftCardCode.Some? && giftCardCode.value != "";
    if !hasCoupon && !hasGiftCard then Err(SchemaError("_schema", "Either coupon_code or gift_card_code is required"))
    else if hasCoupon && hasGiftCard then Err(SchemaError("_schema", "Cannot apply both coupon and gift card"))
    else if hasCoupon then Ok(CouponChoice(couponCode.value))
    else Ok(GiftCardChoice(giftCardCode.value))
  }

  // ---------------------------------------------------------------------------
  // The validation endpoints
  // ---------------------------------------------------------------------------

  datatype Quote = Quote(discountAmountCents: int, finalAmountCents: int)

  /** An endpoint answer: the quote, or an abort with its status and message. */
  datatype Response = Quoted(message: string, quote: Quote) | Aborted(status: int, message: string)

  /** What a validation service answers. */
  datatype Verdict = Verdict(isValid: bool, message: string)

  /** `validate_gift_card`'s arithmetic: the card covers what its balance allows. */
  function GiftCardQuote(balanceCents: int, amountCents: int): (q: Quote)
    ensures q.discountAmountCents + q.finalAmountCents == amountCents
    ensures q.discountAmountCents <= amountCents && q.discountAmountCents <= balanceCents
    ensures q.discountAmountCents == amountCents || q.discountAmountCents == balanceCents
    ensures balanceCents >= 0 && amountCents >= 0 ==> 0 <= q.finalAmountCents <= amountCents
  {
    var discount := if balanceCents <= amountCents then balanceCents else amountCents;
    Quote(discount, amountCents - discount)
  }

  /** `validate_coupon`'s arithmetic: the final amount is what the coupon's discount
      leaves. */
  function CouponQuote(discountCents: int, amountCents: int): (q: Quote)
    ensures q.discountAmountCents == discountCents && q.discountAmountCents + q.finalAmountCents == amountCents
    ensures 0 <= discountCents <= amountCents ==> 0 <= q.finalAmountCents <= amountCents
  {
    Quote(discountCents, amountCents - discountCents)
  }

  /** The first required field missing from the request body. */
  function FirstMissing(data: map<string, Value>, required: seq<string>): (r: Option<string>)
    ensures r.Some? ==> r.value in required && r.value !in data
    ensures r.None? ==> forall f :: f in required ==> f in data
  {
    if required == [] then None
    else if required[0] !in data then Some(required[0])
    else FirstMissing(data, required[1..])
  }

  /** The integer Python's `min` and `-` see in a JSON amount: an integer, or a boolean,
      which Python treats as 0 or 1; any other value makes the arithmetic raise. */
  function ArithmeticAmount(v: Value): (r: Option<int>)
    ensures r.Some? <==> v.Int? || v.Bool?
    ensures v.Int? ==> r == Some(v.i)
    ensures v.Bool? ==> r == Some(if v.b then 1 else 0)
  {
    if v.Int? then Some(v.i)
    else if v.Bool? then Some(if v.b then 1 else 0)
    else None
  }

  /** The body of `validate_gift_card`'s `try`: the 400 aborts it means to send. An
      amount Python cannot subtract fails the arithmetic. */
  function GiftCardAttempt(data: map<string, Value>, verdict: Verdict, balanceCents: int): (r: Response)
    ensures r.Quoted? <==> "code" in data && "amount_cents" in data && verdict.isValid &&
                           ArithmeticAmount(data["amount_cents"]).Some?
    ensures r.Quoted? ==> r.message == verdict.message &&
                          r.quote == GiftCardQuote(balanceCents, ArithmeticAmount(data["amount_cents"]).value)
    ensures r.Aborted? ==> r.status == 400 || r.status == 500
    ensures r.Aborted? && r.status == 500 ==> "amount_cents" in data && ArithmeticAmount(data["amount_cents"]).None?
  {
    match FirstMissing(data, ["code", "amount_cents"])
    case Some(f) => Aborted(400, "Missing required field: " + f)
    case None =>
      var amount := ArithmeticAmount(data["amount_cents"]);
      if !verdict.isValid then Aborted(400, verdict.message)
      else if amount.None? then Aborted(500, "Internal server error")
      else Quoted(verdict.message, GiftCardQuote(balanceCents, amount.value))
  }

  /** The body of `validate_coupon`'s `try`. */
  function CouponAttempt(data: map<string, Value>, verdict: Verdict, discountCents: int): (r: Response)
    ensures r.Quoted? <==> "code" in data && "customer_id" in data && "amount_cents" in data && verdict.isValid &&
                           ArithmeticAmount(data["amount_cents"]).Some?
    ensures r.Quoted? ==> r.message == verdict.message &&
                          r.quote == CouponQuote(discountCents, ArithmeticAmount(data["amount_cents"]).value)
    ensures r.Aborted? ==> r.status == 400 || r.status == 500
    ensures r.Aborted? && r.status == 500 ==> "amount_cents" in data && ArithmeticAmount(data["amount_cents"]).None?
  {
    match FirstMissing(data, ["code", "customer_id", "amount_cents"])
    case Some(f) => Aborted(400, "Missing required field: " + f)
    case None =>
      var amount := ArithmeticAmount(data["amount_cents"]);
      if !verdict.isValid then Aborted(400, verdict.message)
      else if amount.None? then Aborted(500, "Internal server error")
      else Quoted(verdict.message, CouponQuote(discountCents, amount.value))
  }

  /** As written the aborts are raised inside `try ... except Exception`, which catches
      the HTTP exception and aborts again with 500. */
  function CatchAllAsWritten(r: Response): (out: Response)
    ensures out.Aborted? <==> r.Aborted?
  {
    if r.Aborted? then Aborted(500, "Internal server error") else r
  }

  /** Every 400 the endpoints mean to send reaches the client as a 500. */
  lemma ClientErrorsBecomeServerErrors(data: map<string, Value>, verdict: Verdict, balanceCents: int, discountCents: int)
    ensures GiftCardAttempt(data, verdict, balanceCents).Aborted? ==>
              CatchAllAsWritten(GiftCardAttempt(data, verdict, balanceCents)) == Aborted(500, "Internal server error")
    ensures CouponAttempt(data, verdict, discountCents).Aborted? ==>
              CatchAllAsWritten(CouponAttempt(data, verdict, discountCents)) == Aborted(500, "Internal server error")
  {
  }

  /** Corrected: the HTTP exception passes through unchanged. */
  function ValidateGiftCard(data: map<string, Value>, verdict: Verdict, balanceCents: int): (r: Response)
    ensures "code" !in data ==> r == Aborted(400, "Missing required field: code")
    ensures "code" in data && "amount_cents" in data && !verdict.isValid ==> r == Aborted(400, verdict.message)
  {
    GiftCardAttempt(data, verdict, balanceCents)
  }

  /** Corrected: the HTTP exception passes through unchanged. */
  function ValidateCoupon(data: map<string, Value>, verdict: Verdict, discountCents: int): (r: Response)
    ensures "code" !in data ==> r == Aborted(400, "Missing required field: code")
    ensures "code" in data && "customer_id" in data && "amount_cents" in data && !verdict.isValid ==>
              r == Aborted(400, verdict.message)
  {
    CouponAttempt(data, verdict, discountCents)
  }

  /** A valid gift card with a non-negative balance never raises the price or makes it
      negative, and covers the whole amount exactly when its balance does. */
  lemma GiftCardNeverOvercharges(data: map<string, Value>, verdict: Verdict, balanceCents: int)
    requires balanceCents >= 0
    requires ValidateGiftCard(data, verdict, balanceCents).Quoted?
    requires ArithmeticAmount(data["amount_cents"]).value >= 0
    ensures var q := ValidateGiftCard(data, verdict, balanceCents).quote;
            var amount := ArithmeticAmount(data["amount_cents"]).value;
            0 <= q.finalAmountCents <= amount && (q.finalAmountCents == 0 <==> balanceCents >= amount)
  {
  }
}
