/** Coupons and their validation: the check chain shared by src/app/api/coupons/validate/route.ts
    and the order route, the discount formula, and the read-only coupon probe. Amounts are whole
    rupees and times are milliseconds since the epoch. */
module Coupons {
  import opened Base
  import opened Text

  datatype DiscountType = Percent | Flat

  /** A coupon row. `maxUses` and `expiresAt` are nullable; `influencerId` links a creator. */
  datatype Coupon = Coupon(
    code: string,
    discountType: DiscountType,
    discountValue: int,
    minOrderValue: int,
    maxUses: Option<int>,
    usedCount: int,
    expiresAt: Option<int>,
    isActive: bool,
    influencerId: Option<string>)

  /** The coupon table is keyed by its unique code. */
  predicate KeyedByCode(coupons: map<string, Coupon>) {
    forall k :: k in coupons ==> coupons[k].code == k
  }

  const NotFound := "Coupon code not found"
  const Inactive := "This coupon is no longer active"
  const Expired := "This coupon has expired"
  const Exhausted := "This coupon has reached its usage limit"

  function BelowMinimum(minOrderValue: int): string {
    "Minimum order value for this coupon is ₹" + IntToString(minOrderValue)
  }

  /** `coupon.expiresAt && coupon.expiresAt < now`: a date is always truthy. */
  predicate IsExpired(c: Coupon, now: int) { c.expiresAt.Some? && c.expiresAt.value < now }

  /** `coupon.maxUses && coupon.usedCount >= coupon.maxUses`: a cap of 0 is falsy. */
  predicate IsExhausted(c: Coupon) { c.maxUses.Some? && c.maxUses.value != 0 && c.usedCount >= c.maxUses.value }

  /** The key under which the routes look a code up: `code.toUpperCase().trim()`. */
  function LookupKey(code: string): string { Trim(Upper(code)) }

  /** Normalising a key again gives the key. */
  lemma {:induction false} LookupKeyIdempotent(code: string)
    ensures LookupKey(LookupKey(code)) == LookupKey(code)
  {
    TrimUpper(Upper(code));
    UpperIdempotent(code);
    UpperIdempotent(Trim(Upper(code)));
    TrimUpper(code);
    TrimIdempotent(Upper(code));
  }

  /** The five checks, in order; the first that fails decides the message. */
  function CheckCoupon(found: Option<Coupon>, subtotal: int, now: int): (r: Result<Coupon>)
    ensures r.Ok? <==>
      found.Some? && found.value.isActive && !IsExpired(found.value, now) && !IsExhausted(found.value) &&
      subtotal >= found.value.minOrderValue
    ensures r.Ok? ==> r.value == found.value
    ensures r == Err(NotFound) <==> found.None?
    ensures r == Err(Inactive) <==> found.Some? && !found.value.isActive
    ensures r == Err(Expired) <==> found.Some? && found.value.isActive && IsExpired(found.value, now)
    ensures r == Err(Exhausted) <==>
      found.Some? && found.value.isActive && !IsExpired(found.value, now) && IsExhausted(found.value)
    ensures r.Err? && r.message !in {NotFound, Inactive, Expired, Exhausted} ==>
      r.message == BelowMinimum(found.value.minOrderValue) && subtotal < found.value.minOrderValue
  {
    if found.None? then Err(NotFound)
    else
      var c := found.value;
      if !c.isActive then Err(Inactive)
      else if IsExpired(c, now) then Err(Expired)
      else if IsExhausted(c) then Err(Exhausted)
      else if subtotal < c.minOrderValue then
        (assert BelowMinimum(c.minOrderValue)[0] == 'M';
         Err(BelowMinimum(c.minOrderValue)))
      else Ok(c)
  }

  /** PERCENT: Math.round(subtotal * value / 100); FLAT: Math.min(value, subtotal). */
  function Discount(c: Coupon, subtotal: int): (d: int)
    ensures c.discountType == Flat ==> d == Min(c.discountValue, subtotal)
    ensures c.discountType == Percent ==>
      200 * d - 100 <= 2 * subtotal * c.discountValue < 200 * d + 100
  {
    match c.discountType
    case Percent => RoundDiv(subtotal * c.discountValue, 100)
    case Flat => Min(c.discountValue, subtotal)
  }

  /** Neither kind of discount exceeds the subtotal: FLAT by construction, PERCENT while its
      value is a percentage. A non-negative value never gives a negative discount. */
  lemma {:induction false} DiscountBounded(c: Coupon, subtotal: int)
    requires subtotal >= 0 && c.discountValue >= 0
    requires c.discountType == Percent ==> c.discountValue <= 100
    ensures 0 <= Discount(c, subtotal) <= subtotal
  {
    if c.discountType == Percent {
      assert 0 <= subtotal * c.discountValue <= subtotal * 100;
      RoundDivRange(subtotal * c.discountValue, 100, 0, subtotal);
    }
  }

  /** A PERCENT value above 100 gives a discount above the subtotal. */
  lemma PercentAboveHundred()
    ensures Discount(Coupon("X", Percent, 150, 0, None, 0, None, true, None), 1000) == 1500
  {
  }

  /** A coupon that expires exactly now is still accepted. */
  lemma {:induction false} ExpiryIsStrict(c: Coupon, subtotal: int, now: int)
    requires c.isActive && c.expiresAt == Some(now) && !IsExhausted(c) && subtotal >= c.minOrderValue
    ensures CheckCoupon(Some(c), subtotal, now) == Ok(c)
    ensures CheckCoupon(Some(c), subtotal, now + 1) == Err(Expired)
  {
  }

  /** A cap of 0 or none means no cap, whatever the usage count. */
  lemma {:induction false} ZeroCapIsNoCap(c: Coupon, subtotal: int, now: int)
    requires c.isActive && !IsExpired(c, now) && subtotal >= c.minOrderValue
    requires c.maxUses == Some(0) || c.maxUses == None
    ensures CheckCoupon(Some(c), subtotal, now) == Ok(c)
  {
  }

  // ---------------------------------------------------------------------------------------------
  // POST /api/coupons/validate

  datatype ProbeReply = ProbeReply(code: string, discount: int, discountType: DiscountType, discountValue: int)

  const ProbeMissing := "code and subtotal are required"

  /** The probe's JSON body: `code` is None when absent, `subtotal` None when undefined. */
  function ValidateProbe(coupons: map<string, Coupon>, code: Option<string>, subtotal: Option<int>, now: int)
    : (r: Reply<ProbeReply>)
    ensures (code.None? || code.value == "" || subtotal.None?) <==> r == Failure(400, ProbeMissing)
    ensures r.Success? ==>
      var key := LookupKey(code.value);
      key in coupons &&
      CheckCoupon(Some(coupons[key]), subtotal.value, now) == Ok(coupons[key]) &&
      r.body == ProbeReply(coupons[key].code, Discount(coupons[key], subtotal.value),
                           coupons[key].discountType, coupons[key].discountValue)
    ensures r.Failure? && r.error != ProbeMissing ==>
      r.status == 400 &&
      var key := LookupKey(code.value);
      var found := if key in coupons then Some(coupons[key]) else None;
      CheckCoupon(found, subtotal.value, now) == Err(r.error)
  {
    if code.None? || code.value == "" || subtotal.None? then Failure(400, ProbeMissing)
    else
      var key := LookupKey(code.value);
      var found := if key in coupons then Some(coupons[key]) else None;
      match CheckCoupon(found, subtotal.value, now)
      case Err(m) => (assert m != ProbeMissing; Failure(400, m))
      case Ok(c) => Success(ProbeReply(c.code, Discount(c, subtotal.value), c.discountType, c.discountValue))
  }

  /** The probe answers with the stored code, which is the normalised input, not the raw input. */
  lemma {:induction false} ProbeReturnsStoredCode(coupons: map<string, Coupon>, code: string, subtotal: int, now: int)
    requires KeyedByCode(coupons)
    requires ValidateProbe(coupons, Some(code), Some(subtotal), now).Success?
    ensures ValidateProbe(coupons, Some(code), Some(subtotal), now).body.code == Trim(Upper(code))
  {
  }

  /** The seeded coupons: WELCOME10, SPORT40 and FLAT200. */
  const Welcome10 := Coupon("WELCOME10", Percent, 10, 999, Some(1000), 0, None, true, None)
  const Sport40 := Coupon("SPORT40", Percent, 40, 1500, Some(500), 0, None, true, None)
  const Flat200 := Coupon("FLAT200", Flat, 200, 1499, Some(300), 0, None, true, None)

  lemma SeedExamples()
    ensures Discount(Sport40, 5497) == 2199
    ensures Discount(Welcome10, 1005) == 101
    ensures Discount(Flat200, 1499) == 200
    ensures CheckCoupon(Some(Flat200), 1498, 0) == Err(BelowMinimum(1499))
  {
  }
}
