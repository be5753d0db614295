/** The store's tables (the Prisma models the core reads and writes) and the class `Db` that
    holds them. Route handlers take a `Db` and are proved against functions on its `Snapshot()`.
    Row ids are strings; rows are kept in maps from id to row. Two unique indexes are kept
    explicitly, because the routes look rows up by them: customer email and order number. */
module Store {
  import opened Base
  import opened Schemas
  import opened Coupons

  datatype Product = Product(
    name: string,
    slug: string,
    description: string,
    material: Option<string>,
    careInstructions: Option<string>,
    categoryId: string,
    basePrice: int,
    discountedPrice: Option<int>,
    images: seq<string>,
    tags: seq<string>,
    isFeatured: bool,
    metaTitle: Option<string>,
    metaDescription: Option<string>)

  /** Stock is an unbounded integer: nothing in the routes keeps it from going below zero. */
  datatype Variant = Variant(
    productId: string,
    size: string,
    color: string,
    colorHex: Option<string>,
    sku: string,
    stock: int,
    lowStockAt: int)

  datatype Customer = Customer(
    name: string,
    email: string,
    phone: Option<string>,
    whatsappOptIn: bool,
    totalOrders: int,
    totalSpent: int,
    lastOrderAt: Option<int>,
    password: Option<string>)

  datatype Address = Address(
    customerId: string,
    name: string,
    phone: string,
    line1: string,
    line2: Option<string>,
    city: string,
    state: string,
    pincode: string,
    isDefault: bool)

  datatype PaymentStatus = PaymentPending | Paid | PaymentFailed | PaymentRefunded

  datatype OrderStatus = Pending | Confirmed | Processing | Shipped | OutForDelivery | Delivered
                       | Cancelled | ReturnRequested | ReturnApproved | ReturnPicked | Refunded

  /** An order line: a snapshot of the variant and its price when the order was placed. */
  datatype OrderItem = OrderItem(
    productId: string,
    variantId: string,
    productName: string,
    size: string,
    color: string,
    sku: string,
    quantity: int,
    price: int,
    total: int)

  datatype HistoryEntry = HistoryEntry(status: OrderStatus, note: Option<string>, createdAt: int)

  datatype Order = Order(
    orderNumber: string,
    customerId: string,
    addressId: string,
    paymentMethod: PaymentMethod,
    paymentStatus: PaymentStatus,
    status: OrderStatus,
    subtotal: int,
    shippingCharge: int,
    discount: int,
    total: int,
    razorpayOrderId: Option<string>,
    razorpayPaymentId: Option<string>,
    couponCode: Option<string>,
    utmSource: Option<string>,
    utmMedium: Option<string>,
    utmCampaign: Option<string>,
    items: seq<OrderItem>,
    history: seq<HistoryEntry>,
    createdAt: int,
    trackingNumber: Option<string>,
    courierName: Option<string>)

  /** A row of the key-value settings table. Password-reset entries hold a JSON object with an
      email and an expiry; any other value is plain text. */
  datatype Setting = ResetEntry(email: string, expiresAt: int) | Plain(value: string)

  datatype Review = Review(
    customerId: string,
    productId: string,
    rating: int,
    title: Option<string>,
    body: string,
    isPublished: bool)

  /** A saved cart, as the abandoned-cart job sees it. */
  datatype Cart = Cart(
    id: string,
    customerId: Option<string>,
    updatedAt: int,
    itemCount: nat,
    recoveryWASentAt: Option<int>,
    recoveryEmailSentAt: Option<int>)

  datatype Channel = WhatsApp | Email

  datatype BroadcastLog = BroadcastLog(channel: Channel, segment: string, sent: int, failed: int)

  datatype Tables = Tables(
    products: map<string, Product>,
    variants: map<string, Variant>,
    coupons: map<string, Coupon>,
    customers: map<string, Customer>,
    emailIndex: map<string, string>,
    addresses: map<string, Address>,
    orders: map<string, Order>,
    orderNumbers: map<string, string>,
    settings: map<string, Setting>,
    wishlist: set<(string, string)>,
    reviews: map<string, Review>,
    carts: seq<Cart>,
    broadcasts: seq<BroadcastLog>,
    /** The ids of the category rows; a product's `categoryId` must name one. */
    categories: set<string>,
    /** The ids of the influencer rows; a coupon's `influencerId` must name one. */
    influencers: set<string>)

  /** The unique indexes agree with their tables, and the coupon table is keyed by code. */
  predicate Valid(t: Tables) {
    (forall e :: e in t.emailIndex ==> t.emailIndex[e] in t.customers && t.customers[t.emailIndex[e]].email == e) &&
    (forall id :: id in t.customers ==> t.customers[id].email in t.emailIndex && t.emailIndex[t.customers[id].email] == id) &&
    (forall n :: n in t.orderNumbers ==> t.orderNumbers[n] in t.orders && t.orders[t.orderNumbers[n]].orderNumber == n) &&
    (forall id :: id in t.orders ==> t.orders[id].orderNumber in t.orderNumbers && t.orderNumbers[t.orders[id].orderNumber] == id) &&
    KeyedByCode(t.coupons)
  }

  /** In a valid store two customers never share an email. */
  lemma {:induction false} EmailsUnique(t: Tables, a: string, b: string)
    requires Valid(t) && a in t.customers && b in t.customers
    requires t.customers[a].email == t.customers[b].email
    ensures a == b
  {
    assert t.emailIndex[t.customers[a].email] == a;
  }

  /** Rewriting customer rows without touching their emails keeps the store valid. */
  lemma {:induction false} SameEmailsKeepValid(t: Tables, customers: map<string, Customer>)
    requires Valid(t) && customers.Keys == t.customers.Keys
    requires forall id :: id in customers ==> customers[id].email == t.customers[id].email
    ensures Valid(t.(customers := customers))
  {
  }

  /** A customer row under a new id and an unused email, with its index entry, keeps the store
      valid. */
  lemma {:induction false} NewCustomerKeepsValid(t: Tables, id: string, c: Customer)
    requires Valid(t) && id !in t.customers && c.email !in t.emailIndex
    ensures Valid(t.(customers := t.customers[id := c], emailIndex := t.emailIndex[c.email := id]))
  {
    var t1 := t.(customers := t.customers[id := c], emailIndex := t.emailIndex[c.email := id]);
    assert forall e :: e in t1.emailIndex ==> t1.emailIndex[e] in t1.customers && t1.customers[t1.emailIndex[e]].email == e;
    assert forall x :: x in t.customers ==> t.customers[x].email != c.email;
  }

  /** The signed-in user of a request: none, a customer or an admin (with their ids). */
  datatype Session = NoSession | CustomerSession(id: string) | AdminSession(id: string)

  predicate IsCustomer(s: Session) { s.CustomerSession? && s.id != "" }
  predicate IsAdmin(s: Session) { s.AdminSession? }

  const Unauthorized := "Unauthorized"

  /** The customer with this email, through the unique index. */
  function FindByEmail(t: Tables, email: string): (r: Option<string>)
    ensures r.Some? ==> r.value in t.customers && t.customers[r.value].email == email
    ensures Valid(t) && r.None? ==> forall id :: id in t.customers ==> t.customers[id].email != email
  {
    if email in t.emailIndex && t.emailIndex[email] in t.customers && t.customers[t.emailIndex[email]].email == email
    then Some(t.emailIndex[email]) else None
  }

  // ---------------------------------------------------------------------------------------------
  // Steps shared by the order and payment routes

  /** One `variant.update({ stock: { decrement: quantity } })` per line, in order, inside a
      transaction: None when a line's variant does not exist (the transaction is rolled back). */
  function DecrementStock(variants: map<string, Variant>, lines: seq<(string, int)>): (r: Option<map<string, Variant>>)
    ensures r.Some? <==> forall k :: 0 <= k < |lines| ==> lines[k].0 in variants
    ensures r.Some? ==> r.value.Keys == variants.Keys
    decreases |lines|
  {
    if lines == [] then Some(variants)
    else if lines[0].0 !in variants then None
    else
      var v := variants[lines[0].0];
      DecrementStock(variants[lines[0].0 := v.(stock := v.stock - lines[0].1)], lines[1..])
  }

  /** The total quantity the lines take from one variant. */
  function QuantityFor(lines: seq<(string, int)>, id: string): int
  {
    if lines == [] then 0 else (if lines[0].0 == id then lines[0].1 else 0) + QuantityFor(lines[1..], id)
  }

  /** Each variant loses the summed quantity of its lines, and nothing else about it changes;
      there is no lower bound. */
  lemma {:induction false} DecrementStockEffect(variants: map<string, Variant>, lines: seq<(string, int)>, id: string)
    requires DecrementStock(variants, lines).Some? && id in variants
    ensures DecrementStock(variants, lines).value[id] ==
            variants[id].(stock := variants[id].stock - QuantityFor(lines, id))
    decreases |lines|
  {
    if lines != [] {
      var v := variants[lines[0].0];
      var next := variants[lines[0].0 := v.(stock := v.stock - lines[0].1)];
      assert forall k :: 0 <= k < |lines[1..]| ==> lines[1..][k].0 in next by {
        assert forall k :: 0 <= k < |lines[1..]| ==> lines[1..][k] == lines[k + 1];
      }
      DecrementStockEffect(next, lines[1..], id);
    }
  }

  /** The customer counters a settled order bumps: one more order, its total spent, and the time. */
  function RecordPurchase(c: Customer, total: int, now: int): (r: Customer)
    ensures r.totalOrders == c.totalOrders + 1 && r.totalSpent == c.totalSpent + total
    ensures r.lastOrderAt == Some(now)
    ensures r.(totalOrders := c.totalOrders, totalSpent := c.totalSpent, lastOrderAt := c.lastOrderAt) == c
  {
    c.(totalOrders := c.totalOrders + 1, totalSpent := c.totalSpent + total, lastOrderAt := Some(now))
  }

  /** `coupon.updateMany({ where: { code }, data: { usedCount: { increment: 1 } } }).catch(...)`:
      no matching row updates nothing, and a failed write (`ok` false) is swallowed. */
  function BumpCouponUsage(coupons: map<string, Coupon>, code: string, ok: bool): (r: map<string, Coupon>)
    ensures r.Keys == coupons.Keys
    ensures forall k :: k in coupons && k != code ==> r[k] == coupons[k]
    ensures code in coupons ==> r[code] == coupons[code].(usedCount := coupons[code].usedCount + (if ok then 1 else 0))
  {
    if ok && code in coupons then coupons[code := coupons[code].(usedCount := coupons[code].usedCount + 1)]
    else coupons
  }

  /** The store as a mutable object: one field per table. */
  class Db {
    var products: map<string, Product>
    var variants: map<string, Variant>
    var coupons: map<string, Coupon>
    var customers: map<string, Customer>
    var emailIndex: map<string, string>
    var addresses: map<string, Address>
    var orders: map<string, Order>
    var orderNumbers: map<string, string>
    var settings: map<string, Setting>
    var wishlist: set<(string, string)>
    var reviews: map<string, Review>
    var carts: seq<Cart>
    var broadcasts: seq<BroadcastLog>
    var categories: set<string>
    var influencers: set<string>

    function Snapshot(): Tables
      reads this
    {
      Tables(products, variants, coupons, customers, emailIndex, addresses, orders, orderNumbers,
             settings, wishlist, reviews, carts, broadcasts, categories, influencers)
    }

    constructor (t: Tables)
      ensures Snapshot() == t
    {
      products := t.products;
      variants := t.variants;
      coupons := t.coupons;
      customers := t.customers;
      emailIndex := t.emailIndex;
      addresses := t.addresses;
      orders := t.orders;
      orderNumbers := t.orderNumbers;
      settings := t.settings;
      wishlist := t.wishlist;
      reviews := t.reviews;
      carts := t.carts;
      broadcasts := t.broadcasts;
      categories := t.categories;
      influencers := t.influencers;
    }
  }
}
