/** POST /api/payments/verify (src/app/api/payments/verify/route.ts): the gateway's callback
    after an online payment. Four guards, a PAID idempotency guard, then one transaction that
    settles the order, and a coupon bump after it. The signature check is verifyRazorpaySignature
    of src/lib/razorpay.ts with the keyed HMAC-SHA256 hex digest passed in as `sign`. */
module Payments {
  import opened Base
  import opened Schemas
  import opened Coupons
  import opened Store
  import opened Orders

  /** The four JSON fields: None when absent, and as strings when present. */
  datatype Callback = Callback(gatewayOrderId: Option<string>, paymentId: Option<string>,
                               signature: Option<string>, orderId: Option<string>)

  /** A present field is truthy unless it is the empty string. */
  predicate Truthy(f: Option<string>) { f.Some? && f.value != "" }

  predicate Complete(c: Callback) {
    Truthy(c.gatewayOrderId) && Truthy(c.paymentId) && Truthy(c.signature) && Truthy(c.orderId)
  }

  const MissingFields := "Missing required payment fields"
  const BadSignature := "Invalid payment signature"
  const OrderNotFound := "Order not found"
  const VerifyFailed := "Payment verification failed"

  /** verifyRazorpaySignature: the digest of `orderId + "|" + paymentId` equals the signature. */
  predicate SignatureValid(sign: string -> string, gatewayOrderId: string, paymentId: string, signature: string) {
    sign(gatewayOrderId + "|" + paymentId) == signature
  }

  /** The (variant, quantity) pairs of a stored order's lines: the same pairs `Orders.Quantities`
      reads from the request body, here read from the order row (`CodPlacedLines` shows the two
      agree for an order the route placed). */
  function OrderLines(items: seq<OrderItem>): (r: seq<(string, int)>)
    ensures |r| == |items| && forall k :: 0 <= k < |items| ==> r[k] == (items[k].variantId, items[k].quantity)
  {
    seq(|items|, k requires 0 <= k < |items| => (items[k].variantId, items[k].quantity))
  }

  /** The order row after settlement: PAID, CONFIRMED, the payment id, one more history entry. */
  function PaidOrder(o: Order, paymentId: string, now: int): (p: Order)
    ensures p.paymentStatus == Paid && p.status == Confirmed && p.razorpayPaymentId == Some(paymentId)
    ensures p.history == o.history + [HistoryEntry(Confirmed, None, now)]
    ensures p.(paymentStatus := o.paymentStatus, status := o.status, razorpayPaymentId := o.razorpayPaymentId,
               history := o.history) == o
  {
    o.(paymentStatus := Paid, status := Confirmed, razorpayPaymentId := Some(paymentId),
       history := o.history + [HistoryEntry(Confirmed, None, now)])
  }

  /** The `$transaction`: all four kinds of writes or none. A missing customer or variant makes
      its update throw, which rolls the whole step back (None). */
  function Settle(t: Tables, id: string, paymentId: string, now: int): (r: Option<Tables>)
    requires id in t.orders
    ensures r.Some? <==> t.orders[id].customerId in t.customers && DecrementStock(t.variants, OrderLines(t.orders[id].items)).Some?
    ensures r.Some? ==>
      var o := t.orders[id];
      r.value == t.(orders := t.orders[id := PaidOrder(o, paymentId, now)],
                    customers := t.customers[o.customerId := RecordPurchase(t.customers[o.customerId], o.total, now)],
                    variants := DecrementStock(t.variants, OrderLines(o.items)).value)
  {
    var o := t.orders[id];
    if o.customerId !in t.customers then None
    else
      match DecrementStock(t.variants, OrderLines(o.items))
      case None => None
      case Some(vs) =>
        Some(t.(orders := t.orders[id := PaidOrder(o, paymentId, now)],
                customers := t.customers[o.customerId := RecordPurchase(t.customers[o.customerId], o.total, now)],
                variants := vs))
  }

  /** The route: the reply's body is the order number. */
  function VerifySpec(t: Tables, c: Callback, sign: string -> string, now: int, couponWriteOk: bool)
    : (Tables, Reply<string>)
  {
    if !Complete(c) then (t, Failure(400, MissingFields))
    else if !SignatureValid(sign, c.gatewayOrderId.value, c.paymentId.value, c.signature.value) then
      (t, Failure(400, BadSignature))
    else if c.orderId.value !in t.orders then (t, Failure(404, OrderNotFound))
    else
      var o := t.orders[c.orderId.value];
      if o.paymentStatus == Paid then (t, Success(o.orderNumber))
      else
        match Settle(t, c.orderId.value, c.paymentId.value, now)
        case None => (t, Failure(500, VerifyFailed))
        case Some(t1) =>
          var t2 := if o.couponCode.Some? && o.couponCode.value != ""
                    then t1.(coupons := BumpCouponUsage(t1.coupons, o.couponCode.value, couponWriteOk)) else t1;
          (t2, Success(o.orderNumber))
  }

  /** The transaction as a program: the stock decrements are computed line by line and written
      together with the order and customer updates, or not at all. */
  method SettleTransaction(db: Db, id: string, paymentId: string, now: int) returns (ok: bool)
    requires id in db.orders
    modifies db
    ensures var s := Settle(old(db.Snapshot()), id, paymentId, now);
            ok == s.Some? && db.Snapshot() == (if ok then s.value else old(db.Snapshot()))
  {
    var o := db.orders[id];
    if o.customerId !in db.customers {
      return false;
    }
    var lines := OrderLines(o.items);
    var vs := db.variants;
    var i := 0;
    while i < |lines|
      invariant 0 <= i <= |lines|
      invariant DecrementStock(db.variants, lines) == DecrementStock(vs, lines[i..])
    {
      assert lines[i..][1..] == lines[i + 1..];
      var (variantId, quantity) := lines[i];
      if variantId !in vs {
        return false;
      }
      vs := vs[variantId := vs[variantId].(stock := vs[variantId].stock - quantity)];
      i := i + 1;
    }
    db.orders := db.orders[id := PaidOrder(o, paymentId, now)];
    db.customers := db.customers[o.customerId := RecordPurchase(db.customers[o.customerId], o.total, now)];
    db.variants := vs;
    return true;
  }

  method VerifyPayment(db: Db, c: Callback, sign: string -> string, now: int, couponWriteOk: bool)
    returns (r: Reply<string>)
    modifies db
    ensures (db.Snapshot(), r) == VerifySpec(old(db.Snapshot()), c, sign, now, couponWriteOk)
  {
    if !Truthy(c.gatewayOrderId) || !Truthy(c.paymentId) || !Truthy(c.signature) || !Truthy(c.orderId) {
      return Failure(400, MissingFields);
    }
    if sign(c.gatewayOrderId.value + "|" + c.paymentId.value) != c.signature.value {
      return Failure(400, BadSignature);
    }
    var id := c.orderId.value;
    if id !in db.orders {
      return Failure(404, OrderNotFound);
    }
    var o := db.orders[id];
    if o.paymentStatus == Paid {
      return Success(o.orderNumber);
    }
    var ok := SettleTransaction(db, id, c.paymentId.value, now);
    if !ok {
      return Failure(500, VerifyFailed);
    }
    if o.couponCode.Some? && o.couponCode.value != "" {
      db.coupons := BumpCouponUsage(db.coupons, o.couponCode.value, couponWriteOk);
    }
    return Success(o.orderNumber);
  }

  // ---------------------------------------------------------------------------------------------
  // Properties

  /** Each guard gives its status and message, in this order. */
  lemma {:induction false} GuardOrder(t: Tables, c: Callback, sign: string -> string, now: int, ok: bool)
    ensures !Complete(c) ==> VerifySpec(t, c, sign, now, ok) == (t, Failure(400, MissingFields))
    ensures Complete(c) && !SignatureValid(sign, c.gatewayOrderId.value, c.paymentId.value, c.signature.value) ==>
      VerifySpec(t, c, sign, now, ok) == (t, Failure(400, BadSignature))
    ensures (Complete(c) && SignatureValid(sign, c.gatewayOrderId.value, c.paymentId.value, c.signature.value) &&
             c.orderId.value !in t.orders) ==> VerifySpec(t, c, sign, now, ok) == (t, Failure(404, OrderNotFound))
  {
  }

  /** No failure of the route changes anything: the guards come before the transaction, and a
      failed transaction is rolled back. */
  lemma {:induction false} FailureChangesNothing(t: Tables, c: Callback, sign: string -> string, now: int, ok: bool)
    requires VerifySpec(t, c, sign, now, ok).1.Failure?
    ensures VerifySpec(t, c, sign, now, ok).0 == t
  {
  }

  /** An order already PAID is answered with its number and nothing changes. */
  lemma {:induction false} PaidIsNoOp(t: Tables, c: Callback, sign: string -> string, now: int, ok: bool)
    requires Complete(c) && SignatureValid(sign, c.gatewayOrderId.value, c.paymentId.value, c.signature.value)
    requires c.orderId.value in t.orders && t.orders[c.orderId.value].paymentStatus == Paid
    ensures VerifySpec(t, c, sign, now, ok) == (t, Success(t.orders[c.orderId.value].orderNumber))
  {
  }

  /** Repeating a successful callback (at any later time, whatever the coupon write does) is a
      no-op with the same reply. */
  lemma {:induction false} VerifyIdempotent(t: Tables, c: Callback, sign: string -> string, now: int, ok: bool,
                                            later: int, ok2: bool)
    requires VerifySpec(t, c, sign, now, ok).1.Success?
    ensures var (t1, r1) := VerifySpec(t, c, sign, now, ok);
            VerifySpec(t1, c, sign, later, ok2) == (t1, r1)
  {
    var id := c.orderId.value;
    var (t1, r1) := VerifySpec(t, c, sign, now, ok);
    if t.orders[id].paymentStatus != Paid {
      var s := Settle(t, id, c.paymentId.value, now).value;
      assert s.orders[id].paymentStatus == Paid;
      assert t1.orders == s.orders;
    }
  }

  /** A settled order: PAID, CONFIRMED, the payment id recorded, exactly one CONFIRMED entry
      appended to its history, its customer's counters bumped by one order and its total, each
      line's quantity taken from its variant, and then the coupon bumped if it has a code. */
  lemma {:induction false} SettlementEffect(t: Tables, c: Callback, sign: string -> string, now: int, ok: bool)
    requires VerifySpec(t, c, sign, now, ok).1.Success? && t.orders[c.orderId.value].paymentStatus != Paid
    ensures var id := c.orderId.value;
            var o := t.orders[id];
            var after := VerifySpec(t, c, sign, now, ok).0;
            o.customerId in t.customers && DecrementStock(t.variants, OrderLines(o.items)).Some? &&
            after.orders == t.orders[id := PaidOrder(o, c.paymentId.value, now)] &&
            after.customers == t.customers[o.customerId := RecordPurchase(t.customers[o.customerId], o.total, now)] &&
            after.variants == DecrementStock(t.variants, OrderLines(o.items)).value &&
            after.coupons == (if o.couponCode.Some? && o.couponCode.value != ""
                              then BumpCouponUsage(t.coupons, o.couponCode.value, ok) else t.coupons) &&
            after == t.(orders := after.orders, customers := after.customers, variants := after.variants,
                        coupons := after.coupons)
  {
  }

  /** The reply depends on the gateway order id only through the signature: nothing compares it
      with the order's stored `razorpayOrderId`. A callback whose id belongs to another order
      (or to none) is accepted once its signature verifies. */
  lemma {:induction false} StoredGatewayIdIgnored(t: Tables, c: Callback, sign: string -> string, now: int, ok: bool)
    requires Complete(c) && SignatureValid(sign, c.gatewayOrderId.value, c.paymentId.value, c.signature.value)
    requires c.orderId.value in t.orders && t.orders[c.orderId.value].razorpayOrderId != c.gatewayOrderId
    requires t.orders[c.orderId.value].customerId in t.customers
    requires forall k :: 0 <= k < |t.orders[c.orderId.value].items| ==> t.orders[c.orderId.value].items[k].variantId in t.variants
    ensures VerifySpec(t, c, sign, now, ok).1 == Success(t.orders[c.orderId.value].orderNumber)
  {
    assert DecrementStock(t.variants, OrderLines(t.orders[c.orderId.value].items)).Some?;
  }

  /** A second settlement takes the stock again: the guard looks only at `paymentStatus`. */
  lemma {:induction false} SettlementDecrementsEveryTime(t: Tables, c: Callback, sign: string -> string, now: int,
                                                         ok: bool, variantId: string)
    requires VerifySpec(t, c, sign, now, ok).1.Success? && t.orders[c.orderId.value].paymentStatus != Paid
    requires variantId in t.variants
    ensures var o := t.orders[c.orderId.value];
            VerifySpec(t, c, sign, now, ok).0.variants[variantId].stock ==
              t.variants[variantId].stock - QuantityFor(OrderLines(o.items), variantId)
  {
    var o := t.orders[c.orderId.value];
    SettlementEffect(t, c, sign, now, ok);
    DecrementStockEffect(t.variants, OrderLines(o.items), variantId);
  }

  /** A callback with a valid signature for an unpaid order whose customer and variants exist
      is accepted, and takes each line's quantity from its variant. */
  lemma {:induction false} UnpaidOrderSettles(t: Tables, c: Callback, sign: string -> string, now: int, ok: bool)
    requires Complete(c) && SignatureValid(sign, c.gatewayOrderId.value, c.paymentId.value, c.signature.value)
    requires c.orderId.value in t.orders && t.orders[c.orderId.value].paymentStatus != Paid
    requires t.orders[c.orderId.value].customerId in t.customers
    requires forall k :: 0 <= k < |t.orders[c.orderId.value].items| ==> t.orders[c.orderId.value].items[k].variantId in t.variants
    ensures DecrementStock(t.variants, OrderLines(t.orders[c.orderId.value].items)).Some?
    ensures VerifySpec(t, c, sign, now, ok).1 == Success(t.orders[c.orderId.value].orderNumber)
    ensures VerifySpec(t, c, sign, now, ok).0.variants == DecrementStock(t.variants, OrderLines(t.orders[c.orderId.value].items)).value
  {
    assert DecrementStock(t.variants, OrderLines(t.orders[c.orderId.value].items)).Some?;
  }

  /** Lines whose stock could be taken all name existing variants, and still do after. */
  lemma {:induction false} DecrementedLinesKnown(variants: map<string, Variant>, items: seq<ItemBody>)
    requires DecrementStock(variants, Quantities(items)).Some?
    ensures forall k :: 0 <= k < |items| ==> items[k].variantId in DecrementStock(variants, Quantities(items)).value
  {
    assert forall k :: 0 <= k < |items| ==> Quantities(items)[k].0 == items[k].variantId;
  }

  /** A COD order is placed with its stock already taken, yet still PENDING payment; a callback
      for it with a valid signature settles it and takes the stock a second time. */
  lemma {:induction false} CodOrderSettledTwice(t: Tables, b: OrderBody, env: OrderEnv, c: Callback,
                                                sign: string -> string, now: int, ok: bool)
    requires PlaceOrderSpec(t, b, env).1.Success? && PlaceOrderSpec(t, b, env).1.body.paymentMethod == COD
    requires Complete(c) && SignatureValid(sign, c.gatewayOrderId.value, c.paymentId.value, c.signature.value)
    requires c.orderId == Some(env.newOrderId)
    ensures DecrementStock(t.variants, Quantities(b.items)).Some?
    ensures var placed := PlaceOrderSpec(t, b, env).0;
            var once := DecrementStock(t.variants, Quantities(b.items)).value;
            VerifySpec(placed, c, sign, now, ok).1.Success? &&
            DecrementStock(once, Quantities(b.items)).Some? &&
            VerifySpec(placed, c, sign, now, ok).0.variants == DecrementStock(once, Quantities(b.items)).value
  {
    CodPlacedStock(t, b, env);
    CodPlacedLines(t, b, env);
    NewOrderShape(t, b, env);
    DecrementedLinesKnown(t.variants, b.items);
    var placed := PlaceOrderSpec(t, b, env).0;
    SettleAgain(placed, env.newOrderId, Quantities(b.items), c, sign, now, ok);
  }

  /** The COD order's customer exists and its stock is already taken. */
  lemma {:induction false} CodPlacedStock(t: Tables, b: OrderBody, env: OrderEnv)
    requires PlaceOrderSpec(t, b, env).1.Success? && PlaceOrderSpec(t, b, env).1.body.paymentMethod == COD
    ensures DecrementStock(t.variants, Quantities(b.items)).Some?
    ensures var placed := PlaceOrderSpec(t, b, env).0;
            env.newOrderId in placed.orders && placed.orders[env.newOrderId].customerId in placed.customers &&
            placed.variants == DecrementStock(t.variants, Quantities(b.items)).value
  {
    CodSettlesAtOnce(t, b, env);
  }

  /** The placed order's lines are the body's lines. */
  lemma {:induction false} CodPlacedLines(t: Tables, b: OrderBody, env: OrderEnv)
    requires PlaceOrderSpec(t, b, env).1.Success?
    ensures var placed := PlaceOrderSpec(t, b, env).0;
            env.newOrderId in placed.orders && OrderLines(placed.orders[env.newOrderId].items) == Quantities(b.items)
  {
    PlacedOrderPricing(t, b, env);
    var o := PlaceOrderSpec(t, b, env).0.orders[env.newOrderId];
    assert OrderLines(o.items) == Quantities(b.items);
  }

  /** A store whose unpaid order's lines could be taken from its variants once settles, and takes
      them again. */
  lemma {:induction false} SettleAgain(placed: Tables, id: string, lines: seq<(string, int)>, c: Callback,
                                       sign: string -> string, now: int, ok: bool)
    requires Complete(c) && SignatureValid(sign, c.gatewayOrderId.value, c.paymentId.value, c.signature.value)
    requires c.orderId == Some(id) && id in placed.orders
    requires placed.orders[id].paymentStatus != Paid && placed.orders[id].customerId in placed.customers
    requires OrderLines(placed.orders[id].items) == lines
    requires forall k :: 0 <= k < |lines| ==> lines[k].0 in placed.variants
    ensures VerifySpec(placed, c, sign, now, ok).1.Success? && DecrementStock(placed.variants, lines).Some? &&
            VerifySpec(placed, c, sign, now, ok).0.variants == DecrementStock(placed.variants, lines).value
  {
    var o := placed.orders[id];
    assert forall k :: 0 <= k < |o.items| ==> o.items[k].variantId == lines[k].0;
    UnpaidOrderSettles(placed, c, sign, now, ok);
  }
}
