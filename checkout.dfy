/** The checkout page of src/app/checkout/page.tsx: the quote it shows, the coupon it applies
    through the probe and the order request it sends. The page's state variables are the fields
    of `CheckoutForm`; rendering, toasts, navigation and the hosted payment widget are not part
    of this model. */
module Checkout {
  import opened Base
  import opened Text
  import opened Utils
  import opened Schemas
  import opened Coupons
  import opened Store
  import opened CartStore
  import opened Orders

  /** The page's payment choice: 'RAZORPAY' (online) or 'COD'. */
  datatype PayChoice = Online | CashOnDelivery

  /** The contact and address inputs, as typed. */
  datatype Form = Form(
    name: string,
    email: string,
    phone: string,
    line1: string,
    line2: string,
    city: string,
    state: string,
    pincode: string)

  const EmptyForm := Form("", "", "", "", "", "", "", "")

  // ---------------------------------------------------------------------------------------------
  // The quote shown on the page

  /** `shipping = calculateShipping(subtotal - discount)`: the page charges shipping on the
      discounted amount. */
  function ClientShipping(subtotal: int, discount: int): (fee: int)
    ensures fee == 0 || fee == ShippingCharge
    ensures fee == 0 <==> subtotal - discount >= FreeShippingThreshold
  {
    CalculateShipping(subtotal - discount)
  }

  /** `total = Math.max(0, subtotal - discount + shipping)` */
  function ClientTotal(subtotal: int, discount: int): (total: int)
    ensures total >= 0
    ensures total >= subtotal - discount + ClientShipping(subtotal, discount)
  {
    Max(0, subtotal - discount + ClientShipping(subtotal, discount))
  }

  /** The total the order route stores for the same subtotal and discount: shipping on the
      subtotal before the discount. */
  function ServerTotal(subtotal: int, discount: int): (total: int)
    ensures total >= 0
  {
    Max(0, subtotal + CalculateShipping(subtotal) - discount)
  }

  /** `codAvailable = isCODAvailable(subtotal)`: the subtotal before any discount decides. */
  function CodOffered(subtotal: int): (ok: bool)
    ensures ok <==> subtotal >= CodMinOrder
  {
    IsCodAvailable(subtotal)
  }

  /** The page and the server agree on shipping except when the discount takes a subtotal of
      999 or more below 999: then the page adds 49 the server does not charge, so for a
      non-negative discount the page never shows less than the server stores. */
  lemma {:induction false} QuoteAgainstServer(subtotal: int, discount: int)
    requires discount >= 0
    ensures ClientShipping(subtotal, discount) != CalculateShipping(subtotal) <==>
            subtotal >= FreeShippingThreshold > subtotal - discount
    ensures ServerTotal(subtotal, discount) <= ClientTotal(subtotal, discount)
    ensures subtotal - discount >= 0 ==>
            ClientTotal(subtotal, discount) - ServerTotal(subtotal, discount) ==
            ClientShipping(subtotal, discount) - CalculateShipping(subtotal)
  {
    ShippingMonotone(subtotal - discount, subtotal, FreeShippingThreshold, ShippingCharge);
  }

  /** WELCOME10 on a subtotal of 1000: a discount of 100, the page shows 949 and the order is
      stored at 900. */
  lemma Welcome10OnThousand()
    ensures Discount(Welcome10, 1000) == 100
    ensures ClientTotal(1000, 100) == 949 && ServerTotal(1000, 100) == 900
  {
  }

  /** COD is offered from a subtotal of 299, whatever the discount; the order route has no such
      minimum, and prices a COD order exactly as an online one. */
  lemma {:induction false} CodMinimumOnlyOnPage(t: Tables, b: OrderBody, now: int)
    ensures CodOffered(299) && !CodOffered(298)
    ensures QuoteOrder(t, b.(paymentMethod := "COD"), now) == QuoteOrder(t, b, now)
    ensures RouteItemsValid(b.(paymentMethod := "COD")) <==>
            forall k :: 0 <= k < |b.items| ==> b.items[k].quantity >= 1
  {
    assert ParsePaymentMethod("COD") == Some(COD);
  }

  /** The amount handed to the hosted checkout, in paise: `total * 100`. */
  function HostedAmount(subtotal: int, discount: int): (paise: int)
    ensures paise >= 0 && paise % 100 == 0
    ensures paise / 100 == ClientTotal(subtotal, discount)
  {
    ClientTotal(subtotal, discount) * 100
  }

  /** The gateway order the server creates is for `Math.round(total * 100)` paise of the stored
      total; in the shipping mismatch the widget is opened for 4900 paise more. */
  lemma {:induction false} HostedAmountMismatch(subtotal: int, discount: int)
    requires 0 <= discount <= subtotal
    requires subtotal >= FreeShippingThreshold > subtotal - discount
    ensures HostedAmount(subtotal, discount) == ServerTotal(subtotal, discount) * 100 + 4900
  {
    QuoteAgainstServer(subtotal, discount);
  }

  // ---------------------------------------------------------------------------------------------
  // Applying a coupon

  /** The probe looks the code up after upper-casing and trimming it again; trimming first and
      upper-casing first give the same key, so the page's own normalisation changes nothing. */
  lemma {:induction false} ProbeKeyMatchesServer(input: string)
    ensures LookupKey(Upper(Trim(input))) == LookupKey(input)
  {
    UpperIdempotent(Trim(input));
    TrimUpper(Trim(input));
    TrimIdempotent(input);
    TrimUpper(input);
  }

  /** The body applyCoupon posts for an input: nothing when the trimmed input is blank,
      otherwise `{ code: couponInput.trim().toUpperCase(), subtotal }`, whose code the probe
      resolves to the same key as the raw input. */
  function ProbeRequest(input: string, subtotal: int): (r: Option<(string, int)>)
    ensures r.None? <==> Trim(input) == ""
    ensures r.Some? ==> r.value.0 != "" && LookupKey(r.value.0) == LookupKey(input) && r.value.1 == subtotal
  {
    if Trim(input) == "" then None
    else
      ProbeKeyMatchesServer(input);
      Some((Upper(Trim(input)), subtotal))
  }

  /** A coupon the page accepted is accepted again by the order route, with the same discount,
      as long as the subtotal and the coupon table are the same when the order is placed; the
      code kept is the normalised input. */
  lemma {:induction false} AppliedCouponHoldsAtOrder(t: Tables, input: string, subtotal: int, now: int)
    requires KeyedByCode(t.coupons)
    requires ProbeRequest(input, subtotal).Some?
    requires ValidateProbe(t.coupons, Some(ProbeRequest(input, subtotal).value.0), Some(subtotal), now).Success?
    ensures var p := ValidateProbe(t.coupons, Some(ProbeRequest(input, subtotal).value.0), Some(subtotal), now).body;
            p.code == LookupKey(input) &&
            CouponStep(t, Some(p.code), subtotal, now) == Ok((p.discount, Some(p.code)))
  {
    var code := ProbeRequest(input, subtotal).value.0;
    TrimUpper(input);
    ProbeAcceptedHoldsAtOrder(t, code, subtotal, now);
  }

  /** The same for any code the probe accepted whose key is not blank (a blank key would be
      sent to the order route as an empty code, which means no coupon). */
  lemma {:induction false} ProbeAcceptedHoldsAtOrder(t: Tables, code: string, subtotal: int, now: int)
    requires KeyedByCode(t.coupons) && LookupKey(code) != ""
    requires ValidateProbe(t.coupons, Some(code), Some(subtotal), now).Success?
    ensures var p := ValidateProbe(t.coupons, Some(code), Some(subtotal), now).body;
            p.code == LookupKey(code) &&
            CouponStep(t, Some(p.code), subtotal, now) == Ok((p.discount, Some(p.code)))
  {
    var p := ValidateProbe(t.coupons, Some(code), Some(subtotal), now).body;
    var key := LookupKey(code);
    var c := t.coupons[key];
    assert CheckCoupon(Some(c), subtotal, now) == Ok(c);
    assert p == ProbeReply(c.code, Discount(c, subtotal), c.discountType, c.discountValue);
    LookupKeyIdempotent(code);
    assert LookupKey(p.code) == key;
    CouponStepFound(t, p.code, c, subtotal, now);
  }

  lemma {:induction false} CouponStepFound(t: Tables, code: string, c: Coupon, subtotal: int, now: int)
    requires code != "" && LookupKey(code) in t.coupons && t.coupons[LookupKey(code)] == c
    requires CheckCoupon(Some(c), subtotal, now) == Ok(c)
    ensures CouponStep(t, Some(code), subtotal, now) == Ok((Discount(c, subtotal), Some(c.code)))
  {
  }

  // ---------------------------------------------------------------------------------------------
  // The order request

  /** `params.get(name) || undefined`: an absent or empty query parameter is left out. */
  function NonEmpty(s: Option<string>): (r: Option<string>)
    ensures r.Some? <==> s.Some? && s.value != ""
    ensures r.Some? ==> r == s
  {
    if s.Some? && s.value != "" then s else None
  }

  function ItemBodies(items: seq<CartItem>): (r: seq<ItemBody>)
    ensures |r| == |items|
    ensures forall k :: 0 <= k < |items| ==> r[k] == ItemBody(items[k].variantId, items[k].quantity)
  {
    seq(|items|, k requires 0 <= k < |items| => ItemBody(items[k].variantId, items[k].quantity))
  }

  function PaymentMethodField(choice: PayChoice): string {
    if choice == CashOnDelivery then "COD" else "UPI"
  }

  /** handleSubmit's request body; None when the cart is empty and nothing is sent. */
  function OrderRequest(form: Form, whatsappOptIn: bool, choice: PayChoice, couponCode: string,
                        items: seq<CartItem>, utmSource: Option<string>, utmMedium: Option<string>,
                        utmCampaign: Option<string>): (r: Option<OrderBody>)
    ensures r.None? <==> items == []
  {
    if items == [] then None
    else
      Some(OrderBody(None, form.name, form.email, form.phone, Some(whatsappOptIn), form.line1,
                     if form.line2 == "" then None else Some(form.line2), form.city, form.state, form.pincode,
                     ItemBodies(items), PaymentMethodField(choice),
                     if couponCode == "" then None else Some(couponCode),
                     NonEmpty(utmSource), NonEmpty(utmMedium), NonEmpty(utmCampaign)))
  }

  /** What the route receives from a cart the store kept valid: each line as its variant id and
      a quantity of at least one, the payment method as 'COD' or 'UPI' (both accepted), no
      customer id, and a coupon only when one was applied. The item and payment checks of the
      route's schema therefore always pass. */
  lemma {:induction false} RequestShape(form: Form, whatsappOptIn: bool, choice: PayChoice, couponCode: string,
                                        items: seq<CartItem>, utmSource: Option<string>, utmMedium: Option<string>,
                                        utmCampaign: Option<string>)
    requires Positive(items) && items != []
    ensures var b := OrderRequest(form, whatsappOptIn, choice, couponCode, items, utmSource, utmMedium, utmCampaign).value;
            RouteItemsValid(b) &&
            ParsePaymentMethod(b.paymentMethod) == Some(if choice == CashOnDelivery then COD else UPI) &&
            b.customerId.None? &&
            (b.couponCode.None? <==> couponCode == "") &&
            |b.items| == |items| &&
            (forall k :: 0 <= k < |items| ==> b.items[k].variantId == items[k].variantId && b.items[k].quantity == items[k].quantity)
  {
    var b := OrderRequest(form, whatsappOptIn, choice, couponCode, items, utmSource, utmMedium, utmCampaign).value;
    assert forall k :: 0 <= k < |b.items| ==> b.items[k].quantity == items[k].quantity;
  }

  // ---------------------------------------------------------------------------------------------
  // The page's state

  class CheckoutForm {
    var form: Form
    var choice: PayChoice
    var whatsappOptIn: bool
    var couponCode: string
    var couponInput: string
    var discount: int

    constructor ()
      ensures form == EmptyForm && choice == Online && whatsappOptIn
      ensures couponCode == "" && couponInput == "" && discount == 0
    {
      form := EmptyForm;
      choice := Online;
      whatsappOptIn := true;
      couponCode := "";
      couponInput := "";
      discount := 0;
    }

    /** The coupon box upper-cases what is typed. */
    method TypeCoupon(text: string)
      modifies this`couponInput
      ensures couponInput == Upper(text)
    {
      couponInput := Upper(text);
    }

    /** The COD option is shown only while the subtotal reaches the minimum; once chosen it stays
        chosen whatever the subtotal does later. */
    method ChooseCod(subtotal: int)
      modifies this`choice
      ensures choice == if CodOffered(subtotal) then CashOnDelivery else old(choice)
    {
      if CodOffered(subtotal) {
        choice := CashOnDelivery;
      }
    }

    method ChooseOnline()
      modifies this`choice
      ensures choice == Online
    {
      choice := Online;
    }

    /** applyCoupon: `sent` is the probe request it makes, and `answer` the reply to it (None
        when the request or its JSON fails). Only a successful reply to a request that was made
        changes the coupon; the input box is left as typed. */
    method ApplyCoupon(subtotal: int, answer: Option<Reply<ProbeReply>>) returns (sent: Option<(string, int)>)
      modifies this`couponCode, this`discount
      ensures sent == ProbeRequest(old(couponInput), subtotal)
      ensures sent.Some? && answer.Some? && answer.value.Success? ==>
              couponCode == answer.value.body.code && discount == answer.value.body.discount
      ensures !(sent.Some? && answer.Some? && answer.value.Success?) ==>
              couponCode == old(couponCode) && discount == old(discount)
    {
      sent := ProbeRequest(couponInput, subtotal);
      if sent.Some? && answer.Some? && answer.value.Success? {
        couponCode, discount := answer.value.body.code, answer.value.body.discount;
      }
    }

    method RemoveCoupon()
      modifies this`couponCode, this`couponInput, this`discount
      ensures couponCode == "" && couponInput == "" && discount == 0
    {
      couponCode := "";
      couponInput := "";
      discount := 0;
    }
  }
}
