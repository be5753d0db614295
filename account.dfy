/** /api/account (src/app/api/account/route.ts): GET projects the signed-in customer with their
    addresses (default first) and orders (newest first); PATCH updates name, phone and WhatsApp
    opt-in. The tables are maps, so the order in which the store scans address and order rows
    is a parameter (`addressScan`, `orderScan`: row ids). */
module Account {
  import opened Base
  import opened Schemas
  import opened Store

  const NotFound := "Not found"
  /** The generic reply of a handler that throws. */
  const InternalError := "Internal Server Error"

  // ---------------------------------------------------------------------------------------------
  // GET

  datatype ItemView = ItemView(productName: string, productImage: string, productSlug: string, size: string,
                               color: string, quantity: int, price: int, total: int)

  datatype OrderView = OrderView(id: string, orderNumber: string, status: OrderStatus, paymentMethod: PaymentMethod,
                                 paymentStatus: PaymentStatus, total: int, createdAt: int,
                                 trackingNumber: Option<string>, courierName: Option<string>, items: seq<ItemView>)

  datatype AccountView = AccountView(id: string, name: string, email: string, phone: Option<string>,
                                     whatsappOptIn: bool, totalOrders: int, totalSpent: int,
                                     addresses: seq<(string, Address)>, orders: seq<OrderView>)

  /** `images[0] || ''` */
  function FirstImage(images: seq<string>): (s: string)
    ensures s == "" <==> images == [] || images[0] == ""
    ensures images != [] ==> s == images[0]
  {
    if images == [] then "" else images[0]
  }

  /** The customer's rows among the scanned ids, in scan order. */
  function OwnAddresses(t: Tables, customerId: string, scan: seq<string>): (r: seq<(string, Address)>)
    ensures forall k :: 0 <= k < |r| ==> r[k].0 in scan && r[k].0 in t.addresses &&
                                         r[k].1 == t.addresses[r[k].0] && r[k].1.customerId == customerId
    ensures forall id :: id in scan && id in t.addresses && t.addresses[id].customerId == customerId ==>
                         (id, t.addresses[id]) in r
  {
    if scan == [] then []
    else
      var rest := OwnAddresses(t, customerId, scan[1..]);
      var id := scan[0];
      if id in t.addresses && t.addresses[id].customerId == customerId then [(id, t.addresses[id])] + rest else rest
  }

  /** The rows whose `isDefault` is `flag`, in order. */
  function WithDefault(rows: seq<(string, Address)>, flag: bool): (r: seq<(string, Address)>)
    ensures forall x :: x in r <==> x in rows && x.1.isDefault == flag
  {
    if rows == [] then []
    else (if rows[0].1.isDefault == flag then [rows[0]] else []) + WithDefault(rows[1..], flag)
  }

  /** `orderBy: { isDefault: 'desc' }`, keeping scan order within each group. */
  function DefaultFirst(rows: seq<(string, Address)>): (r: seq<(string, Address)>)
    ensures forall x :: x in r <==> x in rows
    ensures forall i, j :: 0 <= i < j < |r| && r[j].1.isDefault ==> r[i].1.isDefault
  {
    var d := WithDefault(rows, true);
    var n := WithDefault(rows, false);
    assert forall i :: 0 <= i < |d| ==> (d + n)[i] == d[i] && d[i] in d;
    assert forall i :: |d| <= i < |d + n| ==> (d + n)[i] == n[i - |d|] && n[i - |d|] in n;
    d + n
  }

  function OwnOrders(t: Tables, customerId: string, scan: seq<string>): (r: seq<(string, Order)>)
    ensures forall k :: 0 <= k < |r| ==> r[k].0 in scan && r[k].0 in t.orders &&
                                         r[k].1 == t.orders[r[k].0] && r[k].1.customerId == customerId
    ensures forall id :: id in scan && id in t.orders && t.orders[id].customerId == customerId ==>
                         (id, t.orders[id]) in r
  {
    if scan == [] then []
    else
      var rest := OwnOrders(t, customerId, scan[1..]);
      var id := scan[0];
      if id in t.orders && t.orders[id].customerId == customerId then [(id, t.orders[id])] + rest else rest
  }

  predicate NewestFirstOrder(rows: seq<(string, Order)>) {
    forall i, j :: 0 <= i < j < |rows| ==> rows[i].1.createdAt >= rows[j].1.createdAt
  }

  function Insert(x: (string, Order), rows: seq<(string, Order)>): (r: seq<(string, Order)>)
    requires NewestFirstOrder(rows)
    ensures NewestFirstOrder(r)
    ensures multiset(r) == multiset(rows) + multiset{x}
    ensures |r| == |rows| + 1 && (r[0] == x || (rows != [] && r[0] == rows[0]))
  {
    if rows == [] || x.1.createdAt >= rows[0].1.createdAt then [x] + rows
    else
      var rest := Insert(x, rows[1..]);
      assert rows == [rows[0]] + rows[1..];
      [rows[0]] + rest
  }

  /** `orderBy: { createdAt: 'desc' }`, keeping scan order between equal times. */
  function NewestFirst(rows: seq<(string, Order)>): (r: seq<(string, Order)>)
    ensures NewestFirstOrder(r)
    ensures multiset(r) == multiset(rows)
  {
    if rows == [] then []
    else
      assert rows == [rows[0]] + rows[1..];
      Insert(rows[0], NewestFirst(rows[1..]))
  }

  /** One line with the product's and variant's current fields; None when either row is gone,
      where the handler would throw. */
  function ItemViewOf(t: Tables, i: OrderItem): (r: Option<ItemView>)
    ensures r.Some? <==> i.productId in t.products && i.variantId in t.variants
    ensures r.Some? ==> r.value.productImage == FirstImage(t.products[i.productId].images)
  {
    if i.productId !in t.products || i.variantId !in t.variants then None
    else
      var p := t.products[i.productId];
      var v := t.variants[i.variantId];
      Some(ItemView(p.name, FirstImage(p.images), p.slug, v.size, v.color, i.quantity, i.price, i.total))
  }

  function ItemViews(t: Tables, items: seq<OrderItem>): (r: Option<seq<ItemView>>)
    ensures r.Some? <==> forall k :: 0 <= k < |items| ==> ItemViewOf(t, items[k]).Some?
    ensures r.Some? ==> |r.value| == |items| &&
                        forall k :: 0 <= k < |items| ==> r.value[k] == ItemViewOf(t, items[k]).value
  {
    if items == [] then Some([])
    else match (ItemViewOf(t, items[0]), ItemViews(t, items[1..]))
      case (Some(v), Some(rest)) => Some([v] + rest)
      case _ => None
  }

  /** An order as the account page lists it: its own fields and the views of its lines. */
  ghost predicate ViewOf(t: Tables, v: OrderView, row: (string, Order)) {
    var o := row.1;
    v.id == row.0 && v.orderNumber == o.orderNumber && v.status == o.status &&
    v.paymentMethod == o.paymentMethod && v.paymentStatus == o.paymentStatus && v.total == o.total &&
    v.createdAt == o.createdAt && v.trackingNumber == o.trackingNumber && v.courierName == o.courierName &&
    ItemViews(t, o.items) == Some(v.items)
  }

  function OrderViews(t: Tables, rows: seq<(string, Order)>): (r: Option<seq<OrderView>>)
    ensures r.Some? <==> forall k :: 0 <= k < |rows| ==> ItemViews(t, rows[k].1.items).Some?
    ensures r.Some? ==> |r.value| == |rows| && forall k :: 0 <= k < |rows| ==> ViewOf(t, r.value[k], rows[k])
  {
    if rows == [] then Some([])
    else
      var (id, o) := rows[0];
      match (ItemViews(t, o.items), OrderViews(t, rows[1..]))
      case (Some(items), Some(rest)) =>
        Some([OrderView(id, o.orderNumber, o.status, o.paymentMethod, o.paymentStatus, o.total, o.createdAt,
                        o.trackingNumber, o.courierName, items)] + rest)
      case _ => None
  }

  function AccountGet(t: Tables, session: Session, addressScan: seq<string>, orderScan: seq<string>)
    : (r: Reply<AccountView>)
    ensures !IsCustomer(session) ==> r == Failure(401, Unauthorized)
    ensures IsCustomer(session) && session.id !in t.customers ==> r == Failure(404, NotFound)
    ensures IsCustomer(session) && session.id in t.customers ==>
      var sorted := NewestFirst(OwnOrders(t, session.id, orderScan));
      (r.Success? <==> OrderViews(t, sorted).Some?) &&
      (r.Success? <==> forall k :: 0 <= k < |sorted| ==> ItemViews(t, sorted[k].1.items).Some?) &&
      (!r.Success? ==> r == Failure(500, InternalError))
    ensures r.Success? ==>
      var c := t.customers[session.id];
      var sorted := NewestFirst(OwnOrders(t, session.id, orderScan));
      r.body.id == session.id && r.body.name == c.name && r.body.email == c.email && r.body.phone == c.phone &&
      r.body.whatsappOptIn == c.whatsappOptIn && r.body.totalOrders == c.totalOrders &&
      r.body.totalSpent == c.totalSpent &&
      r.body.addresses == DefaultFirst(OwnAddresses(t, session.id, addressScan)) &&
      |r.body.orders| == |sorted| && forall k :: 0 <= k < |sorted| ==> ViewOf(t, r.body.orders[k], sorted[k])
  {
    if !IsCustomer(session) then Failure(401, Unauthorized)
    else if session.id !in t.customers then Failure(404, NotFound)
    else
      var c := t.customers[session.id];
      match OrderViews(t, NewestFirst(OwnOrders(t, session.id, orderScan)))
      case None => Failure(500, InternalError)
      case Some(orders) =>
        Success(AccountView(session.id, c.name, c.email, c.phone, c.whatsappOptIn, c.totalOrders, c.totalSpent,
                            DefaultFirst(OwnAddresses(t, session.id, addressScan)), orders))
  }

  /** The orders come newest first and are the customer's own orders, each once. */
  lemma {:induction false} OrdersNewestFirst(t: Tables, session: Session, addressScan: seq<string>, orderScan: seq<string>)
    requires AccountGet(t, session, addressScan, orderScan).Success?
    ensures var os := AccountGet(t, session, addressScan, orderScan).body.orders;
            var sorted := NewestFirst(OwnOrders(t, session.id, orderScan));
            (forall i, j :: 0 <= i < j < |os| ==> os[i].createdAt >= os[j].createdAt) &&
            (forall k :: 0 <= k < |os| ==> os[k].id == sorted[k].0) &&
            multiset(sorted) == multiset(OwnOrders(t, session.id, orderScan))
  {
    var sorted := NewestFirst(OwnOrders(t, session.id, orderScan));
    var os := AccountGet(t, session, addressScan, orderScan).body.orders;
    assert OrderViews(t, sorted).Some? && os == OrderViews(t, sorted).value;
  }

  /** Every address of the customer the scan sees is listed, no one else's, defaults first. */
  lemma {:induction false} AddressesDefaultFirst(t: Tables, session: Session, addressScan: seq<string>,
                                                 orderScan: seq<string>, id: string)
    requires AccountGet(t, session, addressScan, orderScan).Success?
    ensures var a := AccountGet(t, session, addressScan, orderScan).body.addresses;
            (forall i, j :: 0 <= i < j < |a| && a[j].1.isDefault ==> a[i].1.isDefault) &&
            (forall k :: 0 <= k < |a| ==> a[k].1.customerId == session.id) &&
            (id in addressScan && id in t.addresses && t.addresses[id].customerId == session.id ==>
               (id, t.addresses[id]) in a)
  {
    var own := OwnAddresses(t, session.id, addressScan);
    var a := DefaultFirst(own);
    assert forall k :: 0 <= k < |a| ==> a[k] in own;
  }

  // ---------------------------------------------------------------------------------------------
  // PATCH

  /** The JSON body: `name` None when absent; `phone` None when absent and Some(None) for null;
      `whatsappOptIn` None when absent. */
  datatype ProfilePatch = ProfilePatch(name: Option<string>, phone: Option<Option<string>>, whatsappOptIn: Option<bool>)

  datatype Profile = Profile(id: string, name: string, email: string, phone: Option<string>, whatsappOptIn: bool)

  /** `...(name && { name }), ...(phone !== undefined && { phone }), ...(whatsappOptIn !== undefined && ...)` */
  function Patched(c: Customer, p: ProfilePatch): (r: Customer)
    ensures r.name == (if p.name.Some? && p.name.value != "" then p.name.value else c.name)
    ensures r.phone == (if p.phone.Some? then p.phone.value else c.phone)
    ensures r.whatsappOptIn == (if p.whatsappOptIn.Some? then p.whatsappOptIn.value else c.whatsappOptIn)
    ensures r.(name := c.name, phone := c.phone, whatsappOptIn := c.whatsappOptIn) == c
  {
    c.(name := if p.name.Some? && p.name.value != "" then p.name.value else c.name,
       phone := if p.phone.Some? then p.phone.value else c.phone,
       whatsappOptIn := if p.whatsappOptIn.Some? then p.whatsappOptIn.value else c.whatsappOptIn)
  }

  function PatchSpec(t: Tables, session: Session, p: ProfilePatch): (r: (Tables, Reply<Profile>))
    ensures !IsCustomer(session) ==> r == (t, Failure(401, Unauthorized))
    ensures r.1.Failure? ==> r.0 == t
    ensures IsCustomer(session) ==> (r.1.Success? <==> session.id in t.customers)
    ensures IsCustomer(session) && session.id !in t.customers ==> r == (t, Failure(500, InternalError))
    ensures r.1.Success? ==>
      var c := Patched(t.customers[session.id], p);
      r.0 == t.(customers := t.customers[session.id := c]) &&
      r.1.body == Profile(session.id, c.name, c.email, c.phone, c.whatsappOptIn)
  {
    if !IsCustomer(session) then (t, Failure(401, Unauthorized))
    else if session.id !in t.customers then (t, Failure(500, InternalError))
    else
      var c := Patched(t.customers[session.id], p);
      (t.(customers := t.customers[session.id := c]), Success(Profile(session.id, c.name, c.email, c.phone, c.whatsappOptIn)))
  }

  method Patch(db: Db, session: Session, p: ProfilePatch) returns (r: Reply<Profile>)
    modifies db
    ensures (db.Snapshot(), r) == PatchSpec(old(db.Snapshot()), session, p)
  {
    if !IsCustomer(session) {
      return Failure(401, Unauthorized);
    }
    if session.id !in db.customers {
      return Failure(500, InternalError);
    }
    var c := Patched(db.customers[session.id], p);
    db.customers := db.customers[session.id := c];
    r := Success(Profile(session.id, c.name, c.email, c.phone, c.whatsappOptIn));
  }

  /** A PATCH never moves email, counters or password, touches no other customer, and keeps the
      store valid. */
  lemma {:induction false} PatchKeepsTheRest(t: Tables, session: Session, p: ProfilePatch, other: string)
    requires Valid(t) && PatchSpec(t, session, p).1.Success?
    requires other in t.customers
    ensures var t' := PatchSpec(t, session, p).0;
            Valid(t') && other in t'.customers &&
            t'.customers[other].email == t.customers[other].email &&
            t'.customers[other].totalOrders == t.customers[other].totalOrders &&
            t'.customers[other].totalSpent == t.customers[other].totalSpent &&
            t'.customers[other].password == t.customers[other].password &&
            (other != session.id ==> t'.customers[other] == t.customers[other])
  {
    var t' := PatchSpec(t, session, p).0;
    SameEmailsKeepValid(t, t'.customers);
  }

  /** The same PATCH twice leaves what one leaves. */
  lemma {:induction false} PatchIdempotent(t: Tables, session: Session, p: ProfilePatch)
    ensures var t1 := PatchSpec(t, session, p).0;
            PatchSpec(t1, session, p).0 == t1
  {
  }
}
