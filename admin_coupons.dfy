/** POST /api/admin/coupons (src/app/api/admin/coupons/route.ts): an admin creates a coupon. The
    duplicate lookup upper-cases the code; the stored code is upper-cased and trimmed, and the
    table's unique index on the code catches what the lookup misses, and the foreign key on
    `influencerId` refuses an id that names no influencer. */
module AdminCoupons {
  import opened Base
  import opened Text
  import opened Coupons
  import opened Store

  /** The JSON body: None for a missing field, otherwise the value the route parses from it.
      `expiresAt` holds the parsed date in milliseconds. The route tests the fields for
      truthiness, so an empty string and the number 0 count as missing. */
  datatype CouponBody = CouponBody(
    code: Option<string>,
    discountType: Option<string>,
    discountValue: Option<int>,
    minOrderValue: Option<int>,
    maxUses: Option<int>,
    expiresAt: Option<int>,
    influencerId: Option<string>)

  const MissingFields := "code, discountType, and discountValue are required"
  const CodeTaken := "Coupon code already exists"
  /** The store's error text for a rejected insert; its wording is the store's, not the route's. */
  const InsertRejected := "Unique constraint failed on the fields: (`code`)"
  const UnknownDiscountType := "Invalid value for argument `discountType`. Expected DiscountType."
  /** The store's error text for an `influencerId` that names no influencer row. */
  const InfluencerMissing := "Foreign key constraint violated: `Coupon_influencerId_fkey (index)`"

  predicate Given(s: Option<string>) { s.Some? && s.value != "" }
  predicate GivenNumber(n: Option<int>) { n.Some? && n.value != 0 }

  /** The enum column accepts exactly its two names. */
  function ParseDiscountType(s: string): (d: Option<DiscountType>)
    ensures d == Some(Percent) <==> s == "PERCENT"
    ensures d == Some(Flat) <==> s == "FLAT"
    ensures d.None? <==> s != "PERCENT" && s != "FLAT"
  {
    if s == "PERCENT" then Some(Percent) else if s == "FLAT" then Some(Flat) else None
  }

  /** The row the insert writes: `minOrderValue` 0, `maxUses`, `expiresAt` and `influencerId`
      null when falsy, unused, active. */
  function NewCoupon(b: CouponBody, d: DiscountType): (c: Coupon)
    requires b.code.Some? && b.discountValue.Some?
  {
    Coupon(LookupKey(b.code.value), d, b.discountValue.value,
           if b.minOrderValue.Some? then b.minOrderValue.value else 0,
           if GivenNumber(b.maxUses) then b.maxUses else None, 0,
           if GivenNumber(b.expiresAt) then b.expiresAt else None, true,
           if Given(b.influencerId) then b.influencerId else None)
  }

  predicate Complete(b: CouponBody) {
    Given(b.code) && Given(b.discountType) && GivenNumber(b.discountValue)
  }

  /** The route on the store; a created coupon is the reply body (status 201). */
  function CreateCouponSpec(t: Tables, session: Session, b: CouponBody): (r: (Tables, Reply<Coupon>))
    ensures !IsAdmin(session) ==> r == (t, Failure(401, Unauthorized))
    ensures IsAdmin(session) && !Complete(b) ==> r == (t, Failure(400, MissingFields))
    ensures IsAdmin(session) && Complete(b) && Upper(b.code.value) in t.coupons ==> r == (t, Failure(400, CodeTaken))
    ensures r.1.Failure? ==> r.0 == t
    ensures IsAdmin(session) && Complete(b) && ParseDiscountType(b.discountType.value).Some? &&
            Upper(b.code.value) !in t.coupons && LookupKey(b.code.value) !in t.coupons &&
            Given(b.influencerId) && b.influencerId.value !in t.influencers ==>
              r == (t, Failure(500, InfluencerMissing))
    ensures r.1.Success? <==>
      IsAdmin(session) && Complete(b) && Upper(b.code.value) !in t.coupons &&
      ParseDiscountType(b.discountType.value).Some? && LookupKey(b.code.value) !in t.coupons &&
      (Given(b.influencerId) ==> b.influencerId.value in t.influencers)
    ensures r.1.Success? ==>
      r.1.body.code == LookupKey(b.code.value) && r.0 == t.(coupons := t.coupons[r.1.body.code := r.1.body])
  {
    if !IsAdmin(session) then (t, Failure(401, Unauthorized))
    else if !Complete(b) then (t, Failure(400, MissingFields))
    else if Upper(b.code.value) in t.coupons then (t, Failure(400, CodeTaken))
    else
      var d := ParseDiscountType(b.discountType.value);
      if d.None? then (t, Failure(500, UnknownDiscountType))
      else
        var key := LookupKey(b.code.value);
        if key in t.coupons then (t, Failure(500, InsertRejected))
        else if Given(b.influencerId) && b.influencerId.value !in t.influencers then
          (t, Failure(500, InfluencerMissing))
        else
          var c := NewCoupon(b, d.value);
          (t.(coupons := t.coupons[key := c]), Success(c))
  }

  method CreateCoupon(db: Db, session: Session, b: CouponBody) returns (r: Reply<Coupon>)
    modifies db
    ensures (db.Snapshot(), r) == CreateCouponSpec(old(db.Snapshot()), session, b)
  {
    if !IsAdmin(session) {
      return Failure(401, Unauthorized);
    }
    if !Given(b.code) || !Given(b.discountType) || !GivenNumber(b.discountValue) {
      return Failure(400, MissingFields);
    }
    if Upper(b.code.value) in db.coupons {
      return Failure(400, CodeTaken);
    }
    var d := ParseDiscountType(b.discountType.value);
    if d.None? {
      return Failure(500, UnknownDiscountType);
    }
    var key := LookupKey(b.code.value);
    if key in db.coupons {
      return Failure(500, InsertRejected);
    }
    if Given(b.influencerId) && b.influencerId.value !in db.influencers {
      return Failure(500, InfluencerMissing);
    }
    var c := NewCoupon(b, d.value);
    db.coupons := db.coupons[key := c];
    r := Success(c);
  }

  // ---------------------------------------------------------------------------------------------
  // Properties

  /** Every stored code is its own lookup key, as the codes this route writes are. */
  predicate Normalised(coupons: map<string, Coupon>) {
    forall k :: k in coupons ==> LookupKey(k) == k
  }

  /** Creating keeps the table keyed by code and every key normalised. */
  lemma {:induction false} CreateKeepsTable(t: Tables, session: Session, b: CouponBody)
    requires KeyedByCode(t.coupons) && Normalised(t.coupons)
    ensures KeyedByCode(CreateCouponSpec(t, session, b).0.coupons)
    ensures Normalised(CreateCouponSpec(t, session, b).0.coupons)
  {
    var (t', r) := CreateCouponSpec(t, session, b);
    if r.Success? {
      LookupKeyIdempotent(b.code.value);
      InsertKeepsTable(t.coupons, r.body);
    }
  }

  lemma {:induction false} InsertKeepsTable(coupons: map<string, Coupon>, c: Coupon)
    requires KeyedByCode(coupons) && Normalised(coupons) && LookupKey(c.code) == c.code
    ensures KeyedByCode(coupons[c.code := c]) && Normalised(coupons[c.code := c])
  {
  }

  /** The defaults of a created coupon. */
  lemma {:induction false} CreatedDefaults(t: Tables, session: Session, b: CouponBody)
    requires CreateCouponSpec(t, session, b).1.Success?
    ensures var c := CreateCouponSpec(t, session, b).1.body;
            c.minOrderValue == (if b.minOrderValue.None? then 0 else b.minOrderValue.value) &&
            c.maxUses == (if GivenNumber(b.maxUses) then b.maxUses else None) &&
            c.expiresAt == (if GivenNumber(b.expiresAt) then b.expiresAt else None) &&
            c.usedCount == 0 && c.isActive &&
            c.discountValue == b.discountValue.value &&
            (c.discountType == Percent <==> b.discountType == Some("PERCENT"))
  {
  }

  /** A code with a leading space slips past the duplicate lookup of a normalised table, since
      its upper-cased form starts with a space and no stored code does; when its trimmed form is
      taken, the insert is refused with 500 instead of 400. */
  lemma {:induction false} PaddedCodeMissesDuplicateCheck(t: Tables, session: Session, b: CouponBody, rest: string)
    requires Normalised(t.coupons)
    requires IsAdmin(session) && Complete(b) && b.code.value == " " + rest
    requires LookupKey(b.code.value) in t.coupons
    ensures Upper(b.code.value) !in t.coupons
    ensures ParseDiscountType(b.discountType.value).Some? ==>
      CreateCouponSpec(t, session, b) == (t, Failure(500, InsertRejected))
  {
    var u := Upper(b.code.value);
    assert u[0] == ' ' && IsJsSpace(u[0]);
  }

  /** For a code without surrounding spaces the lookup is exact: a normalised table never
      reaches the insert with a taken code. */
  lemma {:induction false} TrimmedCodeLookupIsExact(t: Tables, session: Session, b: CouponBody)
    requires Complete(b) && Trim(Upper(b.code.value)) == Upper(b.code.value)
    ensures CreateCouponSpec(t, session, b).1 != Failure(500, InsertRejected)
  {
    InsertRejectedWhen(t, session, b);
  }

  /** The insert is refused exactly when the upper-cased code is free but its trimmed key is taken. */
  lemma {:induction false} InsertRejectedWhen(t: Tables, session: Session, b: CouponBody)
    ensures CreateCouponSpec(t, session, b).1 == Failure(500, InsertRejected) <==>
            IsAdmin(session) && Complete(b) && Upper(b.code.value) !in t.coupons &&
            ParseDiscountType(b.discountType.value).Some? && LookupKey(b.code.value) in t.coupons
  {
    assert |UnknownDiscountType| != |InsertRejected|;
  }

  /** No range check on the value: a PERCENT coupon of any non-zero value is created, so one
      above 100 discounts more than the subtotal. */
  lemma {:induction false} PercentValueUnchecked(t: Tables, session: Session, b: CouponBody)
    requires IsAdmin(session) && Complete(b) && b.discountType == Some("PERCENT")
    requires Upper(b.code.value) !in t.coupons && LookupKey(b.code.value) !in t.coupons
    requires !Given(b.influencerId) || b.influencerId.value in t.influencers
    ensures CreateCouponSpec(t, session, b).1.Success?
    ensures CreateCouponSpec(t, session, b).1.body.discountValue == b.discountValue.value
  {
  }

  /** A coupon just created is found by the probe under the same raw code, and accepted exactly
      when the subtotal meets its minimum (while unexpired and with a cap that is not negative). */
  lemma {:induction false} CreatedCouponIsRedeemable(t: Tables, session: Session, b: CouponBody, subtotal: int, now: int)
    requires CreateCouponSpec(t, session, b).1.Success?
    requires b.expiresAt.None? || b.expiresAt.value >= now
    requires b.maxUses.None? || b.maxUses.value >= 0
    ensures var (t', r) := CreateCouponSpec(t, session, b);
            ValidateProbe(t'.coupons, b.code, Some(subtotal), now).Success? <==> subtotal >= r.body.minOrderValue
  {
    var (t', r) := CreateCouponSpec(t, session, b);
    CreatedRow(t, session, b);
    FreshCouponChecks(r.body, subtotal, now);
    ProbeOfStoredKey(t'.coupons, b.code.value, subtotal, now);
  }

  /** The created row is the one NewCoupon builds, stored under the lookup key of the raw code. */
  lemma {:induction false} CreatedRow(t: Tables, session: Session, b: CouponBody)
    requires CreateCouponSpec(t, session, b).1.Success?
    ensures var (t', r) := CreateCouponSpec(t, session, b);
            Complete(b) && ParseDiscountType(b.discountType.value).Some? &&
            r.body == NewCoupon(b, ParseDiscountType(b.discountType.value).value) &&
            LookupKey(b.code.value) in t'.coupons && t'.coupons[LookupKey(b.code.value)] == r.body
  {
  }

  /** An active, unused coupon that has not expired and whose cap is not negative is refused
      only below its minimum. */
  lemma {:induction false} FreshCouponChecks(c: Coupon, subtotal: int, now: int)
    requires c.isActive && c.usedCount == 0
    requires c.expiresAt.None? || c.expiresAt.value >= now
    requires c.maxUses.None? || c.maxUses.value >= 0
    ensures CheckCoupon(Some(c), subtotal, now).Ok? <==> subtotal >= c.minOrderValue
  {
  }

  /** The probe under a code whose key is stored checks that row. */
  lemma {:induction false} ProbeOfStoredKey(coupons: map<string, Coupon>, code: string, subtotal: int, now: int)
    requires code != "" && LookupKey(code) in coupons
    ensures ValidateProbe(coupons, Some(code), Some(subtotal), now).Success? <==>
            CheckCoupon(Some(coupons[LookupKey(code)]), subtotal, now).Ok?
  {
  }
}
