/** POST /api/orders (src/app/api/orders/route.ts): validate the body with the route's own
    schema, check stock line by line, price the lines, apply a coupon, then write the customer,
    the address and the order, and for cash on delivery settle at once. The clock, the random
    UUID of the order number, the ids the database assigns, the gateway's order id and whether
    the swallowed coupon write succeeds are all inputs (`OrderEnv`). */
module Orders {
  import opened Base
  import opened Text
  import opened Utils
  import opened Schemas
  import opened Coupons
  import opened Store

  // ---------------------------------------------------------------------------------------------
  // The route's own schema (looser than the shared OrderSchema)

  predicate RouteContactValid(b: OrderBody) {
    |b.customerName| >= 2 && IsEmail(b.customerEmail) && |b.customerPhone| >= 10
  }

  predicate RouteAddressValid(b: OrderBody) {
    |b.addressLine1| >= 5 && |b.city| >= 2 && |b.state| >= 2 && |b.pincode| == 6
  }

  predicate RouteItemsValid(b: OrderBody) {
    (forall k :: 0 <= k < |b.items| ==> b.items[k].quantity >= 1) && ParsePaymentMethod(b.paymentMethod).Some?
  }

  predicate RouteOrderValid(b: OrderBody) {
    RouteContactValid(b) && RouteAddressValid(b) && RouteItemsValid(b)
  }

  function RouteItemIssues(i: ItemBody): (issues: seq<string>)
    ensures issues == [] <==> i.quantity >= 1
  {
    Check(i.quantity >= 1, NumberAtLeastMessage(1))
  }

  function RouteContactIssues(b: OrderBody): (issues: seq<string>)
    ensures issues == [] <==> RouteContactValid(b)
  {
    Check(|b.customerName| >= 2, AtLeastMessage(2)) + Check(IsEmail(b.customerEmail), "Invalid email") +
    Check(|b.customerPhone| >= 10, AtLeastMessage(10))
  }

  function RouteAddressIssues(b: OrderBody): (issues: seq<string>)
    ensures issues == [] <==> RouteAddressValid(b)
  {
    Check(|b.addressLine1| >= 5, AtLeastMessage(5)) + Check(|b.city| >= 2, AtLeastMessage(2)) +
    Check(|b.state| >= 2, AtLeastMessage(2)) + Check(|b.pincode| == 6, ExactlyMessage(6))
  }

  function RouteItemsIssues(b: OrderBody): (issues: seq<string>)
    ensures issues == [] <==> RouteItemsValid(b)
  {
    EachItemIssues(b.items, RouteItemIssues) + PaymentMethodIssues(b.paymentMethod)
  }

  /** The route's `OrderSchema.parse`: the issues in key order; the first is the reply. */
  function RouteOrderIssues(b: OrderBody): (issues: seq<string>)
    ensures issues == [] <==> RouteOrderValid(b)
  {
    RouteContactIssues(b) + RouteAddressIssues(b) + RouteItemsIssues(b)
  }

  /** Every body the shared OrderSchema accepts, the route accepts too. */
  lemma {:induction false} SharedSchemaIsStricter(b: OrderBody)
    requires SharedOrderValid(b)
    ensures RouteOrderValid(b)
  {
    assert forall k :: 0 <= k < |b.items| ==> b.items[k].quantity >= 1 by {
      forall k | 0 <= k < |b.items|
        ensures b.items[k].quantity >= 1
      {
        assert OrderItemIssues(b.items[k]) == [];
      }
    }
  }

  /** The converse fails: the route takes an order with no items, a quantity of 11, an empty
      variant id and a twelve-character phone. */
  lemma RouteSchemaIsLooser()
    ensures var b := OrderBody(None, "Asha", "a@b.co", "+91987654321", None, "12 Main Road", None,
                               "Pune", "Maharashtra", "411001", [], "UPI", None, None, None, None);
            RouteOrderValid(b) && !SharedOrderValid(b) &&
            RouteOrderValid(b.(items := [ItemBody("", 11)])) && !SharedOrderValid(b.(items := [ItemBody("", 11)]))
  {
    EmailAccepted();
  }

  // ---------------------------------------------------------------------------------------------
  // Stock check: each line on its own, in order

  const OrderFailed := "Order creation failed"

  function VariantNotFound(id: string): string { "Variant not found: " + id }
  function OutOfStock(productName: string, size: string): string { productName + " (" + size + ") is out of stock" }

  predicate LineInStock(t: Tables, i: ItemBody) {
    i.variantId in t.variants && t.variants[i.variantId].stock >= i.quantity
  }

  /** The reply of the first line that is unknown or short of stock, if any. Reading the product
      of a short line whose product row is missing throws: 500. */
  function StockFault(t: Tables, items: seq<ItemBody>): (r: Option<Reply<OrderReply>>)
    ensures r.None? <==> forall k :: 0 <= k < |items| ==> LineInStock(t, items[k])
    ensures r.Some? ==> r.value.Failure? && r.value.status in {400, 500}
    ensures r.Some? && r.value.status == 500 ==>
      exists k :: 0 <= k < |items| && !LineInStock(t, items[k]) && items[k].variantId in t.variants &&
                  t.variants[items[k].variantId].productId !in t.products
  {
    if items == [] then None
    else
      var i := items[0];
      if i.variantId !in t.variants then Some(Failure(400, VariantNotFound(i.variantId)))
      else
        var v := t.variants[i.variantId];
        if v.stock < i.quantity then
          if v.productId !in t.products then Some(Failure(500, OrderFailed))
          else Some(Failure(400, OutOfStock(t.products[v.productId].name, v.size)))
        else
          var r := StockFault(t, items[1..]);
          assert forall k :: 1 <= k < |items| ==> items[1..][k - 1] == items[k];
          r
  }

  // ---------------------------------------------------------------------------------------------
  // Pricing

  /** `variant.product.discountedPrice ?? variant.product.basePrice`: a discounted price of 0 is
      used, only null falls back. */
  function UnitPrice(p: Product): int {
    if p.discountedPrice.Some? then p.discountedPrice.value else p.basePrice
  }

  predicate LinePriced(t: Tables, i: ItemBody) {
    i.variantId in t.variants && t.variants[i.variantId].productId in t.products
  }

  function LineFor(t: Tables, i: ItemBody): (l: OrderItem)
    requires LinePriced(t, i)
    ensures l.variantId == i.variantId && l.quantity == i.quantity
    ensures l.price == UnitPrice(t.products[t.variants[i.variantId].productId]) && l.total == l.price * i.quantity
  {
    var v := t.variants[i.variantId];
    var p := t.products[v.productId];
    var price := UnitPrice(p);
    OrderItem(v.productId, i.variantId, p.name, v.size, v.color, v.sku, i.quantity, price, price * i.quantity)
  }

  /** The order lines, or None when some line's product row is missing. */
  function PriceLines(t: Tables, items: seq<ItemBody>): (r: Option<seq<OrderItem>>)
    ensures r.Some? <==> forall k :: 0 <= k < |items| ==> LinePriced(t, items[k])
    ensures r.Some? ==> |r.value| == |items| && forall k :: 0 <= k < |items| ==> r.value[k] == LineFor(t, items[k])
    decreases |items|
  {
    if items == [] then Some([])
    else
      var init := items[..|items| - 1];
      var last := items[|items| - 1];
      assert forall k :: 0 <= k < |init| ==> init[k] == items[k];
      match PriceLines(t, init)
      case None => None
      case Some(ls) => if LinePriced(t, last) then Some(ls + [LineFor(t, last)]) else None
  }

  /** Σ line totals. */
  function SumTotals(lines: seq<OrderItem>): int
  {
    if lines == [] then 0 else SumTotals(lines[..|lines| - 1]) + lines[|lines| - 1].total
  }

  /** Σ quantities. */
  function SumQuantities(lines: seq<OrderItem>): int
  {
    if lines == [] then 0 else SumQuantities(lines[..|lines| - 1]) + lines[|lines| - 1].quantity
  }

  // ---------------------------------------------------------------------------------------------
  // Coupon

  /** The coupon step: no code (or an empty one) means no discount; otherwise the shared check
      chain decides, and the validated code is the stored coupon's. */
  function CouponStep(t: Tables, code: Option<string>, subtotal: int, now: int): (r: Result<(int, Option<string>)>)
    ensures code.None? || code.value == "" ==> r == Ok((0, None))
    ensures code.Some? && code.value != "" ==>
      var key := LookupKey(code.value);
      var found := if key in t.coupons then Some(t.coupons[key]) else None;
      match CheckCoupon(found, subtotal, now)
      case Err(m) => r == Err(m)
      case Ok(c) => r == Ok((Discount(c, subtotal), Some(c.code)))
  {
    if code.None? || code.value == "" then Ok((0, None))
    else
      var key := LookupKey(code.value);
      var found := if key in t.coupons then Some(t.coupons[key]) else None;
      match CheckCoupon(found, subtotal, now)
      case Err(m) => Err(m)
      case Ok(c) => Ok((Discount(c, subtotal), Some(c.code)))
  }

  // ---------------------------------------------------------------------------------------------
  // The quote: everything before the first write

  datatype OrderReply = OrderReply(
    orderId: string,
    orderNumber: string,
    razorpayOrderId: Option<string>,
    total: int,
    discount: int,
    paymentMethod: PaymentMethod)

  datatype Pricing =
    | Rejected(reply: Reply<OrderReply>)
    | Quoted(lines: seq<OrderItem>, subtotal: int, shipping: int, discount: int, couponCode: Option<string>, total: int)

  function QuoteOrder(t: Tables, b: OrderBody, now: int): (q: Pricing)
    ensures q.Rejected? ==> q.reply.Failure?
    ensures q.Quoted? <==>
      StockFault(t, b.items).None? && PriceLines(t, b.items).Some? &&
      CouponStep(t, b.couponCode, SumTotals(PriceLines(t, b.items).value), now).Ok?
    ensures q.Quoted? ==>
      q.lines == PriceLines(t, b.items).value && q.subtotal == SumTotals(q.lines) &&
      q.shipping == CalculateShipping(q.subtotal) &&
      (q.discount, q.couponCode) == CouponStep(t, b.couponCode, q.subtotal, now).value &&
      q.total == Max(0, q.subtotal + q.shipping - q.discount)
  {
    match StockFault(t, b.items)
    case Some(fault) => Rejected(fault)
    case None =>
      match PriceLines(t, b.items)
      case None => Rejected(Failure(500, OrderFailed))
      case Some(lines) =>
        var subtotal := SumTotals(lines);
        var shipping := CalculateShipping(subtotal);
        match CouponStep(t, b.couponCode, subtotal, now)
        case Err(m) => Rejected(Failure(400, m))
        case Ok((discount, code)) => Quoted(lines, subtotal, shipping, discount, code, Max(0, subtotal + shipping - discount))
  }

  // ---------------------------------------------------------------------------------------------
  // The writes

  /** Inputs the route takes from its environment. `gatewayOrderId` is None when creating the
      gateway order throws. */
  datatype OrderEnv = OrderEnv(
    now: int,
    year: nat,
    uuid: string,
    newCustomerId: string,
    newAddressId: string,
    newOrderId: string,
    gatewayOrderId: Option<string>,
    couponWriteOk: bool)

  /** `crypto.randomUUID().replace(/-/g, '').substring(0, 6).toUpperCase()` */
  function UuidSuffix(uuid: string): (s: string)
    ensures |s| <= 6 && '-' !in s
  {
    var compact := RemoveDashes(uuid);
    Upper(if |compact| <= 6 then compact else compact[..6])
  }

  function RemoveDashes(s: string): (r: string)
    ensures '-' !in r && |r| <= |s|
  {
    if s == [] then [] else (if s[0] == '-' then [] else [s[0]]) + RemoveDashes(s[1..])
  }

  function OrderNumber(year: nat, uuid: string): (n: string)
    ensures StartsWith(n, "NPG-")
  {
    "NPG-" + NatToString(year) + "-" + UuidSuffix(uuid)
  }

  function OptIn(b: OrderBody): bool {
    if b.whatsappOptIn.Some? then b.whatsappOptIn.value else false
  }

  predicate UsesCustomerId(t: Tables, b: OrderBody) {
    b.customerId.Some? && b.customerId.value != "" && b.customerId.value in t.customers
  }

  /** The customer the order is for: the row named by `customerId` if it exists, else an upsert by
      email that overwrites name, phone and opt-in of an existing row or creates one. None: the
      create hit a unique constraint (500). */
  function ResolveCustomer(t: Tables, b: OrderBody, newId: string): (r: Option<(Tables, string)>)
    ensures r.Some? ==> r.value.1 in r.value.0.customers
    ensures r.Some? ==> r.value.0 == t.(customers := r.value.0.customers, emailIndex := r.value.0.emailIndex)
    ensures UsesCustomerId(t, b) ==> r == Some((t, b.customerId.value))
  {
    if UsesCustomerId(t, b) then Some((t, b.customerId.value))
    else
      match FindByEmail(t, b.customerEmail)
      case Some(id) =>
        var c := t.customers[id];
        Some((t.(customers := t.customers[id := c.(name := b.customerName, phone := Some(b.customerPhone), whatsappOptIn := OptIn(b))]), id))
      case None =>
        if newId in t.customers || b.customerEmail in t.emailIndex then None
        else
          var c := Customer(b.customerName, b.customerEmail, Some(b.customerPhone), OptIn(b), 0, 0, None, None);
          Some((t.(customers := t.customers[newId := c], emailIndex := t.emailIndex[b.customerEmail := newId]), newId))
  }

  function NewAddress(b: OrderBody, customerId: string): Address {
    Address(customerId, b.customerName, b.customerPhone, b.addressLine1, b.addressLine2, b.city, b.state, b.pincode, false)
  }

  function InitialStatus(m: PaymentMethod): OrderStatus { if m == COD then Confirmed else Pending }

  function NewOrder(b: OrderBody, m: PaymentMethod, customerId: string, env: OrderEnv, q: Pricing, number: string,
                    gateway: Option<string>): Order
    requires q.Quoted?
  {
    Order(number, customerId, env.newAddressId, m, PaymentPending, InitialStatus(m), q.subtotal, q.shipping,
          q.discount, q.total, gateway, None, q.couponCode, b.utmSource, b.utmMedium, b.utmCampaign, q.lines,
          [HistoryEntry(InitialStatus(m), None, env.now)], env.now, None, None)
  }

  /** The (variant, quantity) pairs of the request's lines. */
  function Quantities(items: seq<ItemBody>): (r: seq<(string, int)>)
    ensures |r| == |items| && forall k :: 0 <= k < |items| ==> r[k] == (items[k].variantId, items[k].quantity)
  {
    seq(|items|, k requires 0 <= k < |items| => (items[k].variantId, items[k].quantity))
  }

  /** The COD transaction and the coupon bump that follows it. */
  function SettleCod(t: Tables, b: OrderBody, env: OrderEnv, q: Pricing, customerId: string): (r: Option<Tables>)
    requires q.Quoted? && customerId in t.customers
    ensures r.Some? <==> DecrementStock(t.variants, Quantities(b.items)).Some?
    ensures r.Some? ==>
      r.value == t.(variants := DecrementStock(t.variants, Quantities(b.items)).value,
                    customers := t.customers[customerId := RecordPurchase(t.customers[customerId], q.total, env.now)],
                    coupons := r.value.coupons) &&
      r.value.coupons == (if q.couponCode.Some? && q.couponCode.value != ""
                          then BumpCouponUsage(t.coupons, q.couponCode.value, env.couponWriteOk) else t.coupons)
  {
    match DecrementStock(t.variants, Quantities(b.items))
    case None => None
    case Some(vs) =>
      var t1 := t.(variants := vs, customers := t.customers[customerId := RecordPurchase(t.customers[customerId], q.total, env.now)]);
      Some(if q.couponCode.Some? && q.couponCode.value != ""
           then t1.(coupons := BumpCouponUsage(t1.coupons, q.couponCode.value, env.couponWriteOk)) else t1)
  }

  function MethodOf(b: OrderBody): PaymentMethod
    requires RouteOrderValid(b)
  {
    ParsePaymentMethod(b.paymentMethod).value
  }

  /** The gateway order id the order row and the reply carry: none for COD. */
  function GatewayOf(b: OrderBody, env: OrderEnv): Option<string>
    requires RouteOrderValid(b)
  {
    if MethodOf(b) == COD then None else env.gatewayOrderId
  }

  function WithAddress(t: Tables, b: OrderBody, env: OrderEnv, customerId: string): Tables {
    t.(addresses := t.addresses[env.newAddressId := NewAddress(b, customerId)])
  }

  /** The order row (with its lines and first history entry) and its number in the index. */
  function Opened(t: Tables, b: OrderBody, env: OrderEnv, q: Pricing, customerId: string): Tables
    requires q.Quoted? && RouteOrderValid(b)
  {
    var number := OrderNumber(env.year, env.uuid);
    t.(orders := t.orders[env.newOrderId := NewOrder(b, MethodOf(b), customerId, env, q, number, GatewayOf(b, env))],
       orderNumbers := t.orderNumbers[number := env.newOrderId])
  }

  function PlacedReply(b: OrderBody, env: OrderEnv, q: Pricing): OrderReply
    requires q.Quoted? && RouteOrderValid(b)
  {
    OrderReply(env.newOrderId, OrderNumber(env.year, env.uuid), GatewayOf(b, env), q.total, q.discount, MethodOf(b))
  }

  /** Everything from the customer upsert on. A failure after a write keeps that write: the
      route has no transaction around the customer, address and order creates. */
  function RecordOrder(t: Tables, b: OrderBody, env: OrderEnv, q: Pricing): (Tables, Reply<OrderReply>)
    requires q.Quoted? && RouteOrderValid(b)
  {
    match ResolveCustomer(t, b, env.newCustomerId)
    case None => (t, Failure(500, OrderFailed))
    case Some((t1, customerId)) => WriteOrder(t1, b, env, q, customerId)
  }

  /** The address and order creates once the customer is known, and for COD the settlement. */
  function WriteOrder(t1: Tables, b: OrderBody, env: OrderEnv, q: Pricing, customerId: string): (Tables, Reply<OrderReply>)
    requires q.Quoted? && RouteOrderValid(b) && customerId in t1.customers
  {
    if env.newAddressId in t1.addresses then (t1, Failure(500, OrderFailed))
    else
      var t2 := WithAddress(t1, b, env, customerId);
      if MethodOf(b) != COD && env.gatewayOrderId.None? then (t2, Failure(500, OrderFailed))
      else if env.newOrderId in t2.orders || OrderNumber(env.year, env.uuid) in t2.orderNumbers then
        (t2, Failure(500, OrderFailed))
      else
        var t3 := Opened(t2, b, env, q, customerId);
        if MethodOf(b) != COD then (t3, Success(PlacedReply(b, env, q)))
        else
          match SettleCod(t3, b, env, q, customerId)
          case None => (t3, Failure(500, OrderFailed))
          case Some(t4) => (t4, Success(PlacedReply(b, env, q)))
  }

  /** The whole route. */
  function PlaceOrderSpec(t: Tables, b: OrderBody, env: OrderEnv): (Tables, Reply<OrderReply>)
  {
    var issues := RouteOrderIssues(b);
    if issues != [] then (t, Failure(400, issues[0]))
    else
      var q := QuoteOrder(t, b, env.now);
      if q.Rejected? then (t, q.reply) else RecordOrder(t, b, env, q)
  }

  // ---------------------------------------------------------------------------------------------
  // The route as a program

  /** The `for…of` stock loop: the first line that fails decides. */
  method CheckStock(db: Db, items: seq<ItemBody>) returns (fault: Option<Reply<OrderReply>>)
    ensures fault == StockFault(db.Snapshot(), items)
  {
    var i := 0;
    while i < |items|
      invariant 0 <= i <= |items|
      invariant StockFault(db.Snapshot(), items) == StockFault(db.Snapshot(), items[i..])
    {
      var item := items[i];
      assert items[i..][1..] == items[i + 1..];
      if item.variantId !in db.variants {
        return Some(Failure(400, VariantNotFound(item.variantId)));
      }
      var v := db.variants[item.variantId];
      if v.stock < item.quantity {
        if v.productId !in db.products {
          return Some(Failure(500, OrderFailed));
        }
        return Some(Failure(400, OutOfStock(db.products[v.productId].name, v.size)));
      }
      i := i + 1;
    }
    return None;
  }

  /** The `items.map` that builds the lines and adds each line's total to `subtotal`. */
  method PriceItems(db: Db, items: seq<ItemBody>) returns (lines: Option<seq<OrderItem>>, subtotal: int)
    ensures lines == PriceLines(db.Snapshot(), items)
    ensures lines.Some? ==> subtotal == SumTotals(lines.value)
  {
    subtotal := 0;
    var acc: seq<OrderItem> := [];
    var i := 0;
    while i < |items|
      invariant 0 <= i <= |items|
      invariant PriceLines(db.Snapshot(), items[..i]) == Some(acc)
      invariant subtotal == SumTotals(acc)
    {
      var item := items[i];
      assert items[..i + 1][..i] == items[..i];
      if item.variantId !in db.variants || db.variants[item.variantId].productId !in db.products {
        assert !LinePriced(db.Snapshot(), items[..i + 1][i]);
        return None, subtotal;
      }
      var line := LineFor(db.Snapshot(), item);
      subtotal := subtotal + line.total;
      acc := acc + [line];
      assert acc[..|acc| - 1] == acc[..i];
      i := i + 1;
    }
    assert items[..|items|] == items;
    return Some(acc), subtotal;
  }

  /** Everything before the first write; reads the store and changes nothing. */
  method Quote(db: Db, b: OrderBody, now: int) returns (q: Pricing)
    ensures q == QuoteOrder(db.Snapshot(), b, now)
  {
    var fault := CheckStock(db, b.items);
    if fault.Some? {
      return Rejected(fault.value);
    }
    var lines, subtotal := PriceItems(db, b.items);
    if lines.None? {
      return Rejected(Failure(500, OrderFailed));
    }
    var shipping := CalculateShipping(subtotal);
    match CouponStep(db.Snapshot(), b.couponCode, subtotal, now)
    case Err(m) => q := Rejected(Failure(400, m));
    case Ok((discount, code)) => q := Quoted(lines.value, subtotal, shipping, discount, code, Max(0, subtotal + shipping - discount));
  }

  /** The COD transaction: every line's decrement and the customer's counters, committed
      together or not at all. */
  method SettleCodTransaction(db: Db, b: OrderBody, env: OrderEnv, q: Pricing, customerId: string) returns (ok: bool)
    requires q.Quoted? && customerId in db.customers
    modifies db
    ensures var s := SettleCod(old(db.Snapshot()), b, env, q, customerId);
            ok == s.Some? && (if ok then db.Snapshot() == s.value else db.Snapshot() == old(db.Snapshot()))
  {
    var lines := Quantities(b.items);
    var vs := db.variants;
    var i := 0;
    while i < |lines|
      invariant 0 <= i <= |lines|
      invariant DecrementStock(db.variants, lines) == DecrementStock(vs, lines[i..])
    {
      assert lines[i..][1..] == lines[i + 1..];
      var (id, quantity) := lines[i];
      if id !in vs {
        return false;
      }
      vs := vs[id := vs[id].(stock := vs[id].stock - quantity)];
      i := i + 1;
    }
    db.variants := vs;
    db.customers := db.customers[customerId := RecordPurchase(db.customers[customerId], q.total, env.now)];
    if q.couponCode.Some? && q.couponCode.value != "" {
      db.coupons := BumpCouponUsage(db.coupons, q.couponCode.value, env.couponWriteOk);
    }
    return true;
  }

  method Record(db: Db, b: OrderBody, env: OrderEnv, q: Pricing) returns (r: Reply<OrderReply>)
    requires q.Quoted? && RouteOrderValid(b)
    modifies db
    ensures (db.Snapshot(), r) == RecordOrder(old(db.Snapshot()), b, env, q)
  {
    var customerId := Resolve(db, b, env.newCustomerId);
    if customerId.None? {
      return Failure(500, OrderFailed);
    }
    assert customerId.value in db.customers;
    r := Write(db, b, env, q, customerId.value);
  }

  /** The customer stage: the row named by `customerId`, or the upsert by email. */
  method Resolve(db: Db, b: OrderBody, newId: string) returns (customerId: Option<string>)
    modifies db
    ensures ResolveCustomer(old(db.Snapshot()), b, newId) ==
            (if customerId.Some? then Some((db.Snapshot(), customerId.value)) else None)
    ensures customerId.None? ==> db.Snapshot() == old(db.Snapshot())
  {
    if b.customerId.Some? && b.customerId.value != "" && b.customerId.value in db.customers {
      return b.customerId;
    }
    var found := FindByEmail(db.Snapshot(), b.customerEmail);
    if found.Some? {
      var c := db.customers[found.value];
      db.customers := db.customers[found.value := c.(name := b.customerName, phone := Some(b.customerPhone), whatsappOptIn := OptIn(b))];
      return found;
    }
    if newId in db.customers || b.customerEmail in db.emailIndex {
      return None;
    }
    db.customers := db.customers[newId := Customer(b.customerName, b.customerEmail, Some(b.customerPhone), OptIn(b), 0, 0, None, None)];
    db.emailIndex := db.emailIndex[b.customerEmail := newId];
    customerId := Some(newId);
  }

  method Write(db: Db, b: OrderBody, env: OrderEnv, q: Pricing, customerId: string) returns (r: Reply<OrderReply>)
    requires q.Quoted? && RouteOrderValid(b) && customerId in db.customers
    modifies db
    ensures (db.Snapshot(), r) == WriteOrder(old(db.Snapshot()), b, env, q, customerId)
  {
    if env.newAddressId in db.addresses {
      return Failure(500, OrderFailed);
    }
    db.addresses := db.addresses[env.newAddressId := NewAddress(b, customerId)];
    var number := OrderNumber(env.year, env.uuid);
    if MethodOf(b) != COD && env.gatewayOrderId.None? {
      return Failure(500, OrderFailed);
    }
    if env.newOrderId in db.orders || number in db.orderNumbers {
      return Failure(500, OrderFailed);
    }
    db.orders := db.orders[env.newOrderId := NewOrder(b, MethodOf(b), customerId, env, q, number, GatewayOf(b, env))];
    db.orderNumbers := db.orderNumbers[number := env.newOrderId];
    r := Success(PlacedReply(b, env, q));
    if MethodOf(b) == COD {
      var ok := SettleCodTransaction(db, b, env, q, customerId);
      if !ok {
        r := Failure(500, OrderFailed);
      }
    }
  }

  method PlaceOrder(db: Db, b: OrderBody, env: OrderEnv) returns (r: Reply<OrderReply>)
    modifies db
    ensures (db.Snapshot(), r) == PlaceOrderSpec(old(db.Snapshot()), b, env)
  {
    ghost var t := db.Snapshot();
    var issues := RouteOrderIssues(b);
    if issues != [] {
      return Failure(400, issues[0]);
    }
    var q := Quote(db, b, env.now);
    assert q == QuoteOrder(t, b, env.now);
    if q.Rejected? {
      return q.reply;
    }
    r := Record(db, b, env, q);
    assert PlaceOrderSpec(t, b, env) == RecordOrder(t, b, env, q);
  }

  // ---------------------------------------------------------------------------------------------
  // Properties of the route

  /** A request that passes the schema is decided by the quote, and then by the writes. */
  lemma {:induction false} PlaceOrderStages(t: Tables, b: OrderBody, env: OrderEnv)
    requires PlaceOrderSpec(t, b, env).1.Success?
    ensures RouteOrderValid(b) && QuoteOrder(t, b, env.now).Quoted?
    ensures PlaceOrderSpec(t, b, env) == RecordOrder(t, b, env, QuoteOrder(t, b, env.now))
  {
  }

  /** What a successful run of the writes did: the customer stage, the address, the order row,
      and for COD the settlement. */
  lemma {:induction false} RecordOrderStages(t: Tables, b: OrderBody, env: OrderEnv, q: Pricing)
    requires q.Quoted? && RouteOrderValid(b) && RecordOrder(t, b, env, q).1.Success?
    ensures ResolveCustomer(t, b, env.newCustomerId).Some?
    ensures var (t1, customerId) := ResolveCustomer(t, b, env.newCustomerId).value;
            var t3 := Opened(WithAddress(t1, b, env, customerId), b, env, q, customerId);
            env.newAddressId !in t1.addresses && (MethodOf(b) == COD || env.gatewayOrderId.Some?) &&
            env.newOrderId !in t1.orders && OrderNumber(env.year, env.uuid) !in t1.orderNumbers &&
            RecordOrder(t, b, env, q).1 == Success(PlacedReply(b, env, q)) &&
            (MethodOf(b) == COD ==> SettleCod(t3, b, env, q, customerId).Some?) &&
            RecordOrder(t, b, env, q).0 == (if MethodOf(b) == COD then SettleCod(t3, b, env, q, customerId).value else t3)
  {
  }

  /** Once the quote stands, every failure is a 500. */
  lemma {:induction false} RecordOrderFailsWith500(t: Tables, b: OrderBody, env: OrderEnv, q: Pricing)
    requires q.Quoted? && RouteOrderValid(b)
    ensures RecordOrder(t, b, env, q).1.Failure? ==> RecordOrder(t, b, env, q).1.status == 500
  {
  }

  /** Every 400 the route gives (schema, stock, coupon) comes before the first write. */
  lemma {:induction false} BadRequestChangesNothing(t: Tables, b: OrderBody, env: OrderEnv)
    requires PlaceOrderSpec(t, b, env).1.Failure? && PlaceOrderSpec(t, b, env).1.status == 400
    ensures PlaceOrderSpec(t, b, env).0 == t
  {
    if RouteOrderIssues(b) == [] && QuoteOrder(t, b, env.now).Quoted? {
      RecordOrderFailsWith500(t, b, env, QuoteOrder(t, b, env.now));
    }
  }

  /** An unknown variant or a short line rejects the request with the stock reply, and nothing
      is written. */
  lemma {:induction false} StockRejection(t: Tables, b: OrderBody, env: OrderEnv, k: nat)
    requires RouteOrderValid(b) && k < |b.items| && !LineInStock(t, b.items[k])
    ensures StockFault(t, b.items).Some?
    ensures PlaceOrderSpec(t, b, env) == (t, StockFault(t, b.items).value)
  {
    assert StockFault(t, b.items).Some?;
    assert RouteOrderIssues(b) == [];
    assert QuoteOrder(t, b, env.now) == Rejected(StockFault(t, b.items).value);
  }

  /** A coupon the check chain refuses rejects the request with that message, and nothing is
      written. */
  lemma {:induction false} CouponRejection(t: Tables, b: OrderBody, env: OrderEnv, lines: seq<OrderItem>)
    requires RouteOrderValid(b) && StockFault(t, b.items).None? && PriceLines(t, b.items) == Some(lines)
    requires b.couponCode.Some? && b.couponCode.value != ""
    requires var key := LookupKey(b.couponCode.value);
             CheckCoupon(if key in t.coupons then Some(t.coupons[key]) else None, SumTotals(lines), env.now).Err?
    ensures var key := LookupKey(b.couponCode.value);
            PlaceOrderSpec(t, b, env) ==
              (t, Failure(400, CheckCoupon(if key in t.coupons then Some(t.coupons[key]) else None,
                                           SumTotals(lines), env.now).message))
  {
    assert RouteOrderIssues(b) == [];
    assert CouponStep(t, b.couponCode, SumTotals(lines), env.now).Err?;
  }

  /** Two lines for one variant are each checked alone against its stock: with one unit left,
      two lines of one unit pass, and a COD order takes the stock to -1. */
  lemma DuplicateLinesPass(t: Tables)
    requires t.variants == map["v" := Variant("p", "UK8", "Black", None, "NPG-RS-BLA-UK8", 1, 3)]
    requires t.products == map["p" := Product("Runner", "runner", "", None, None, "c", 1999, None, [], [], false, None, None)]
    ensures var items := [ItemBody("v", 1), ItemBody("v", 1)];
            StockFault(t, items).None? && PriceLines(t, items).Some? &&
            DecrementStock(t.variants, Quantities(items)).value["v"].stock == -1
  {
    var items := [ItemBody("v", 1), ItemBody("v", 1)];
    assert LineInStock(t, items[0]) && LineInStock(t, items[1]);
    assert LinePriced(t, items[0]) && LinePriced(t, items[1]);
    var lines := Quantities(items);
    assert lines == [("v", 1), ("v", 1)];
    assert lines[1..] == [("v", 1)] && lines[1..][1..] == [];
    assert QuantityFor(lines[1..], "v") == 1;
    assert QuantityFor(lines, "v") == 2;
    DecrementStockEffect(t.variants, lines, "v");
  }

  /** The order row and the reply a successful run of the writes leaves: the first-stage row,
      which the COD settlement does not touch. */
  lemma {:induction false} RecordedRow(t: Tables, b: OrderBody, env: OrderEnv, q: Pricing)
    requires q.Quoted? && RouteOrderValid(b) && RecordOrder(t, b, env, q).1.Success?
    ensures ResolveCustomer(t, b, env.newCustomerId).Some?
    ensures var customerId := ResolveCustomer(t, b, env.newCustomerId).value.1;
            var (t', r) := RecordOrder(t, b, env, q);
            env.newOrderId in t'.orders &&
            t'.orders[env.newOrderId] == NewOrder(b, MethodOf(b), customerId, env, q, OrderNumber(env.year, env.uuid), GatewayOf(b, env)) &&
            r == Success(PlacedReply(b, env, q))
  {
    RecordOrderStages(t, b, env, q);
    var (t1, customerId) := ResolveCustomer(t, b, env.newCustomerId).value;
    var t3 := Opened(WithAddress(t1, b, env, customerId), b, env, q, customerId);
    assert RecordOrder(t, b, env, q).0.orders == t3.orders;
  }

  /** The same for the whole route. */
  lemma {:induction false} PlacedRow(t: Tables, b: OrderBody, env: OrderEnv)
    requires PlaceOrderSpec(t, b, env).1.Success?
    ensures RouteOrderValid(b) && QuoteOrder(t, b, env.now).Quoted? && ResolveCustomer(t, b, env.newCustomerId).Some?
    ensures var q := QuoteOrder(t, b, env.now);
            var customerId := ResolveCustomer(t, b, env.newCustomerId).value.1;
            var (t', r) := PlaceOrderSpec(t, b, env);
            env.newOrderId in t'.orders &&
            t'.orders[env.newOrderId] == NewOrder(b, MethodOf(b), customerId, env, q, OrderNumber(env.year, env.uuid), GatewayOf(b, env)) &&
            r == Success(PlacedReply(b, env, q))
  {
    PlaceOrderStages(t, b, env);
    RecordedRow(t, b, env, QuoteOrder(t, b, env.now));
  }

  /** The created order's money: each line priced at `discountedPrice ?? basePrice` times its
      quantity, subtotal their sum, shipping on that pre-discount subtotal, and total
      max(0, subtotal + shipping - discount). The reply repeats total and discount. */
  lemma {:induction false} PlacedOrderPricing(t: Tables, b: OrderBody, env: OrderEnv)
    requires PlaceOrderSpec(t, b, env).1.Success?
    ensures env.newOrderId in PlaceOrderSpec(t, b, env).0.orders
    ensures var o := PlaceOrderSpec(t, b, env).0.orders[env.newOrderId];
            var r := PlaceOrderSpec(t, b, env).1.body;
            |o.items| == |b.items| &&
            (forall k :: 0 <= k < |b.items| ==> LinePriced(t, b.items[k]) && o.items[k] == LineFor(t, b.items[k])) &&
            o.subtotal == SumTotals(o.items) && o.shippingCharge == CalculateShipping(o.subtotal) &&
            o.total == Max(0, o.subtotal + o.shippingCharge - o.discount) &&
            r.orderId == env.newOrderId && r.total == o.total && r.discount == o.discount
  {
    PlacedRow(t, b, env);
  }

  /** The created order is PENDING payment, CONFIRMED for COD and PENDING otherwise, with one
      history entry of that status; a gateway order id is stored exactly for non-COD orders. */
  lemma {:induction false} NewOrderShape(t: Tables, b: OrderBody, env: OrderEnv)
    requires PlaceOrderSpec(t, b, env).1.Success?
    ensures env.newOrderId in PlaceOrderSpec(t, b, env).0.orders
    ensures var o := PlaceOrderSpec(t, b, env).0.orders[env.newOrderId];
            var r := PlaceOrderSpec(t, b, env).1.body;
            o.paymentStatus == PaymentPending &&
            o.status == (if r.paymentMethod == COD then Confirmed else Pending) &&
            o.history == [HistoryEntry(o.status, None, env.now)] &&
            o.paymentMethod == r.paymentMethod && Some(o.paymentMethod) == ParsePaymentMethod(b.paymentMethod) &&
            (o.razorpayOrderId.Some? <==> o.paymentMethod != COD) && r.razorpayOrderId == o.razorpayOrderId &&
            o.orderNumber == r.orderNumber && r.orderNumber == OrderNumber(env.year, env.uuid)
  {
    PlacedRow(t, b, env);
  }

  /** With no usable customerId, an existing customer with the email is reused with name,
      phone and opt-in overwritten: no customer row and no index entry is added. */
  lemma {:induction false} EmailUpsertReuses(t: Tables, b: OrderBody, newId: string, id: string)
    requires RouteOrderValid(b) && !UsesCustomerId(t, b) && Valid(t)
    requires id in t.customers && t.customers[id].email == b.customerEmail
    ensures ResolveCustomer(t, b, newId).Some?
    ensures var (t1, customerId) := ResolveCustomer(t, b, newId).value;
            customerId == id && t1.customers.Keys == t.customers.Keys && t1.emailIndex == t.emailIndex &&
            t1.customers[id] == t.customers[id].(name := b.customerName, phone := Some(b.customerPhone),
                                                   whatsappOptIn := OptIn(b))
  {
    assert FindByEmail(t, b.customerEmail) == Some(id);
  }

  lemma {:induction false} ResolveCustomerKeepsValid(t: Tables, b: OrderBody, newId: string)
    requires Valid(t)
    ensures ResolveCustomer(t, b, newId).Some? ==> Valid(ResolveCustomer(t, b, newId).value.0)
  {
    if !UsesCustomerId(t, b) {
      match FindByEmail(t, b.customerEmail)
      case Some(id) =>
        SameEmailsKeepValid(t, ResolveCustomer(t, b, newId).value.0.customers);
      case None =>
        if newId !in t.customers && b.customerEmail !in t.emailIndex {
          NewCustomerKeepsValid(t, newId, Customer(b.customerName, b.customerEmail, Some(b.customerPhone), OptIn(b), 0, 0, None, None));
        }
    }
  }

  /** The customer stage never touches an existing customer's order counters. */
  lemma {:induction false} ResolveCustomerKeepsCounters(t: Tables, b: OrderBody, newId: string)
    requires ResolveCustomer(t, b, newId).Some?
    ensures var t1 := ResolveCustomer(t, b, newId).value.0;
            forall id :: id in t.customers ==>
              (id in t1.customers &&
               t1.customers[id].totalOrders == t.customers[id].totalOrders &&
               t1.customers[id].totalSpent == t.customers[id].totalSpent &&
               t1.customers[id].lastOrderAt == t.customers[id].lastOrderAt)
  {
  }

  lemma {:induction false} OpenedKeepsValid(t: Tables, b: OrderBody, env: OrderEnv, q: Pricing, customerId: string)
    requires Valid(t) && q.Quoted? && RouteOrderValid(b)
    requires env.newOrderId !in t.orders && OrderNumber(env.year, env.uuid) !in t.orderNumbers
    ensures Valid(Opened(WithAddress(t, b, env, customerId), b, env, q, customerId))
  {
  }

  lemma {:induction false} SettleCodKeepsValid(t: Tables, b: OrderBody, env: OrderEnv, q: Pricing, customerId: string)
    requires Valid(t) && q.Quoted? && customerId in t.customers && SettleCod(t, b, env, q, customerId).Some?
    ensures Valid(SettleCod(t, b, env, q, customerId).value)
  {
    var t4 := SettleCod(t, b, env, q, customerId).value;
    SameEmailsKeepValid(t, t4.customers);
    assert t4 == t.(customers := t4.customers).(variants := t4.variants, coupons := t4.coupons);
  }

  lemma {:induction false} RecordedOrderKeepsValid(t: Tables, b: OrderBody, env: OrderEnv, q: Pricing)
    requires Valid(t) && q.Quoted? && RouteOrderValid(b) && RecordOrder(t, b, env, q).1.Success?
    ensures Valid(RecordOrder(t, b, env, q).0)
  {
    ResolveCustomerKeepsValid(t, b, env.newCustomerId);
    RecordOrderStages(t, b, env, q);
    var (t1, customerId) := ResolveCustomer(t, b, env.newCustomerId).value;
    OpenedKeepsValid(t1, b, env, q, customerId);
    if MethodOf(b) == COD {
      SettleCodKeepsValid(Opened(WithAddress(t1, b, env, customerId), b, env, q, customerId), b, env, q, customerId);
    }
  }

  lemma {:induction false} RefusedOrderKeepsValid(t: Tables, b: OrderBody, env: OrderEnv, q: Pricing)
    requires Valid(t) && q.Quoted? && RouteOrderValid(b) && !RecordOrder(t, b, env, q).1.Success?
    ensures Valid(RecordOrder(t, b, env, q).0)
  {
    ResolveCustomerKeepsValid(t, b, env.newCustomerId);
    if ResolveCustomer(t, b, env.newCustomerId).Some? {
      var (t1, customerId) := ResolveCustomer(t, b, env.newCustomerId).value;
      if env.newAddressId !in t1.addresses && (MethodOf(b) == COD || env.gatewayOrderId.Some?) &&
         env.newOrderId !in t1.orders && OrderNumber(env.year, env.uuid) !in t1.orderNumbers {
        OpenedKeepsValid(t1, b, env, q, customerId);
      }
    }
  }

  lemma {:induction false} RecordOrderKeepsValid(t: Tables, b: OrderBody, env: OrderEnv, q: Pricing)
    requires Valid(t) && q.Quoted? && RouteOrderValid(b)
    ensures Valid(RecordOrder(t, b, env, q).0)
  {
    if RecordOrder(t, b, env, q).1.Success? {
      RecordedOrderKeepsValid(t, b, env, q);
    } else {
      RefusedOrderKeepsValid(t, b, env, q);
    }
  }

  /** The route keeps the unique indexes and the coupon keying intact. */
  lemma {:induction false} PlaceOrderKeepsValid(t: Tables, b: OrderBody, env: OrderEnv)
    requires Valid(t)
    ensures Valid(PlaceOrderSpec(t, b, env).0)
  {
    if RouteOrderIssues(b) == [] && QuoteOrder(t, b, env.now).Quoted? {
      RecordOrderKeepsValid(t, b, env, QuoteOrder(t, b, env.now));
    }
  }

  /** Hence, in a valid store, placing an order never leaves two customers with one email. */
  lemma {:induction false} OneCustomerPerEmail(t: Tables, b: OrderBody, env: OrderEnv, x: string, y: string)
    requires Valid(t)
    requires var after := PlaceOrderSpec(t, b, env).0;
             x in after.customers && y in after.customers && after.customers[x].email == after.customers[y].email
    ensures x == y
  {
    PlaceOrderKeepsValid(t, b, env);
    EmailsUnique(PlaceOrderSpec(t, b, env).0, x, y);
  }

  /** A placed COD order takes every line's quantity from its variant and bumps its customer's
      counters in one step, then the coupon's usage if a coupon was applied (a failed bump is
      swallowed). */
  lemma {:induction false} CodSettlesAtOnce(t: Tables, b: OrderBody, env: OrderEnv)
    requires PlaceOrderSpec(t, b, env).1.Success? && PlaceOrderSpec(t, b, env).1.body.paymentMethod == COD
    ensures ResolveCustomer(t, b, env.newCustomerId).Some?
    ensures var (t1, customerId) := ResolveCustomer(t, b, env.newCustomerId).value;
            var after := PlaceOrderSpec(t, b, env).0;
            var q := QuoteOrder(t, b, env.now);
            q.Quoted? && DecrementStock(t.variants, Quantities(b.items)).Some? &&
            env.newOrderId in after.orders && after.orders[env.newOrderId].customerId == customerId &&
            after.variants == DecrementStock(t.variants, Quantities(b.items)).value &&
            after.customers == t1.customers[customerId := RecordPurchase(t1.customers[customerId], q.total, env.now)] &&
            after.coupons == (if q.couponCode.Some? && q.couponCode.value != ""
                              then BumpCouponUsage(t.coupons, q.couponCode.value, env.couponWriteOk) else t.coupons)
  {
    PlaceOrderStages(t, b, env);
    var q := QuoteOrder(t, b, env.now);
    RecordOrderStages(t, b, env, q);
  }

  /** A placed online order leaves stock, coupons and every customer's order counters as they
      were. */
  lemma {:induction false} OnlineOrderDefersSettlement(t: Tables, b: OrderBody, env: OrderEnv)
    requires PlaceOrderSpec(t, b, env).1.Success? && PlaceOrderSpec(t, b, env).1.body.paymentMethod != COD
    ensures var after := PlaceOrderSpec(t, b, env).0;
            after.variants == t.variants && after.coupons == t.coupons &&
            forall id :: id in t.customers ==>
              (id in after.customers &&
               after.customers[id].totalOrders == t.customers[id].totalOrders &&
               after.customers[id].totalSpent == t.customers[id].totalSpent &&
               after.customers[id].lastOrderAt == t.customers[id].lastOrderAt)
  {
    PlaceOrderStages(t, b, env);
    var q := QuoteOrder(t, b, env.now);
    RecordOrderStages(t, b, env, q);
    ResolveCustomerKeepsCounters(t, b, env.newCustomerId);
    var (t1, customerId) := ResolveCustomer(t, b, env.newCustomerId).value;
    var t3 := Opened(WithAddress(t1, b, env, customerId), b, env, q, customerId);
    assert PlaceOrderSpec(t, b, env).0 == t3;
    assert t3.customers == t1.customers && t1.variants == t.variants && t1.coupons == t.coupons;
  }
}
