/** GET /api/track (src/app/api/track/route.ts): public order tracking by order number, with an
    optional phone check for guests. A read-only projection of one order. */
module Track {
  import opened Base
  import opened Text
  import opened Schemas
  import opened Store

  const OrderNumberRequired := "Order number required"
  const OrderNotFound := "Order not found"
  const FetchFailed := "Failed to fetch order"

  datatype TrackItem = TrackItem(name: string, image: Option<string>, size: string, color: string,
                                 quantity: int, price: int)

  datatype TrackView = TrackView(orderNumber: string, status: OrderStatus, paymentStatus: PaymentStatus,
                                 paymentMethod: PaymentMethod, total: int, trackingNumber: Option<string>,
                                 courierName: Option<string>, createdAt: int, address: Option<string>,
                                 items: seq<TrackItem>, statusHistory: seq<HistoryEntry>)

  /** `${line1}, ${city}, ${state} - ${pincode}` */
  function AddressLine(a: Address): (s: string)
    ensures StartsWith(s, a.line1 + ", ") && EndsWith(s, " - " + a.pincode)
  {
    var s := a.line1 + ", " + a.city + ", " + a.state + " - " + a.pincode;
    assert s[..|a.line1 + ", "|] == a.line1 + ", ";
    assert s[|s| - |" - " + a.pincode|..] == " - " + a.pincode;
    s
  }

  /** `phone && order.address?.phone && !order.address.phone.endsWith(phone.slice(-4))`: true when
      the request is refused. An empty string is falsy. */
  predicate PhoneMismatch(phone: Option<string>, stored: Option<string>) {
    phone.Some? && phone.value != "" && stored.Some? && stored.value != "" &&
    !EndsWith(stored.value, LastChars(phone.value, 4))
  }

  predicate OldestFirstOrder(h: seq<HistoryEntry>) {
    forall i, j :: 0 <= i < j < |h| ==> h[i].createdAt <= h[j].createdAt
  }

  function InsertEntry(e: HistoryEntry, h: seq<HistoryEntry>): (r: seq<HistoryEntry>)
    requires OldestFirstOrder(h)
    ensures OldestFirstOrder(r)
    ensures multiset(r) == multiset(h) + multiset{e}
    ensures |r| == |h| + 1 && (r[0] == e || (h != [] && r[0] == h[0]))
  {
    if h == [] || e.createdAt <= h[0].createdAt then [e] + h
    else
      var rest := InsertEntry(e, h[1..]);
      assert h == [h[0]] + h[1..];
      [h[0]] + rest
  }

  /** `statusHistory: { orderBy: { createdAt: 'asc' } }` */
  function OldestFirst(h: seq<HistoryEntry>): (r: seq<HistoryEntry>)
    ensures OldestFirstOrder(r)
    ensures multiset(r) == multiset(h)
  {
    if h == [] then []
    else
      assert h == [h[0]] + h[1..];
      InsertEntry(h[0], OldestFirst(h[1..]))
  }

  /** One line with its product's name and first image and its variant's size and colour; None
      when either row is gone, where `i.product.name` throws. */
  function TrackItemOf(t: Tables, i: OrderItem): (r: Option<TrackItem>)
    ensures r.Some? <==> i.productId in t.products && i.variantId in t.variants
    ensures r.Some? ==> (r.value.image.None? <==> t.products[i.productId].images == [] ||
                                                  t.products[i.productId].images[0] == "")
  {
    if i.productId !in t.products || i.variantId !in t.variants then None
    else
      var p := t.products[i.productId];
      var v := t.variants[i.variantId];
      Some(TrackItem(p.name, if p.images != [] && p.images[0] != "" then Some(p.images[0]) else None,
                     v.size, v.color, i.quantity, i.price))
  }

  function TrackItems(t: Tables, items: seq<OrderItem>): (r: Option<seq<TrackItem>>)
    ensures r.Some? <==> forall k :: 0 <= k < |items| ==> TrackItemOf(t, items[k]).Some?
    ensures r.Some? ==> |r.value| == |items| &&
                        forall k :: 0 <= k < |items| ==> r.value[k] == TrackItemOf(t, items[k]).value
  {
    if items == [] then Some([])
    else match (TrackItemOf(t, items[0]), TrackItems(t, items[1..]))
      case (Some(v), Some(rest)) => Some([v] + rest)
      case _ => None
  }

  /** The order with this number, through the unique index. */
  function FindOrder(t: Tables, orderNumber: string): (r: Option<Order>)
    ensures r.Some? ==> r.value.orderNumber == orderNumber
    ensures Valid(t) ==> (r.Some? <==> exists id :: id in t.orders && t.orders[id].orderNumber == orderNumber)
  {
    if orderNumber in t.orderNumbers && t.orderNumbers[orderNumber] in t.orders &&
       t.orders[t.orderNumbers[orderNumber]].orderNumber == orderNumber
    then Some(t.orders[t.orderNumbers[orderNumber]]) else None
  }

  /** The query parameters are None when absent; an empty order number is missing too. */
  function TrackSpec(t: Tables, orderNumber: Option<string>, phone: Option<string>): (r: Reply<TrackView>)
    ensures orderNumber.None? || orderNumber.value == "" ==> r == Failure(400, OrderNumberRequired)
    ensures orderNumber.Some? && orderNumber.value != "" && FindOrder(t, orderNumber.value).None? ==>
              r == Failure(404, OrderNotFound)
    ensures r.Success? <==>
      orderNumber.Some? && orderNumber.value != "" && FindOrder(t, orderNumber.value).Some? &&
      var o := FindOrder(t, orderNumber.value).value;
      !PhoneMismatch(phone, if o.addressId in t.addresses then Some(t.addresses[o.addressId].phone) else None) &&
      TrackItems(t, o.items).Some?
    ensures r.Success? ==>
      var o := FindOrder(t, orderNumber.value).value;
      r.body.orderNumber == orderNumber.value && r.body.status == o.status && r.body.total == o.total &&
      r.body.paymentStatus == o.paymentStatus && r.body.paymentMethod == o.paymentMethod &&
      r.body.trackingNumber == o.trackingNumber && r.body.courierName == o.courierName &&
      r.body.createdAt == o.createdAt && r.body.items == TrackItems(t, o.items).value &&
      r.body.statusHistory == OldestFirst(o.history) &&
      r.body.address == (if o.addressId in t.addresses then Some(AddressLine(t.addresses[o.addressId])) else None)
  {
    if orderNumber.None? || orderNumber.value == "" then Failure(400, OrderNumberRequired)
    else match FindOrder(t, orderNumber.value)
      case None => Failure(404, OrderNotFound)
      case Some(o) =>
        var address := if o.addressId in t.addresses then Some(t.addresses[o.addressId]) else None;
        if PhoneMismatch(phone, if address.Some? then Some(address.value.phone) else None) then Failure(404, OrderNotFound)
        else match TrackItems(t, o.items)
          case None => Failure(500, FetchFailed)
          case Some(items) =>
            Success(TrackView(o.orderNumber, o.status, o.paymentStatus, o.paymentMethod, o.total, o.trackingNumber,
                              o.courierName, o.createdAt,
                              if address.Some? then Some(AddressLine(address.value)) else None,
                              items, OldestFirst(o.history)))
  }

  // ---------------------------------------------------------------------------------------------
  // The phone gate

  /** A wrong phone gets exactly the reply an unknown order number gets. */
  lemma {:induction false} WrongPhoneLooksUnknown(t: Tables, n: string, phone: string, unknown: string)
    requires n != "" && unknown != "" && FindOrder(t, n).Some? && FindOrder(t, unknown).None?
    requires var o := FindOrder(t, n).value;
             o.addressId in t.addresses && PhoneMismatch(Some(phone), Some(t.addresses[o.addressId].phone))
    ensures TrackSpec(t, Some(n), Some(phone)) == TrackSpec(t, Some(unknown), Some(phone)) == Failure(404, OrderNotFound)
  {
  }

  /** Without a phone, or for an order with no stored phone, the gate does not apply: the reply
      is the same as for any phone. */
  lemma {:induction false} GateNeedsBothPhones(t: Tables, n: string, phone: Option<string>)
    requires FindOrder(t, n).Some?
    requires var o := FindOrder(t, n).value;
             o.addressId !in t.addresses || t.addresses[o.addressId].phone == ""
    ensures TrackSpec(t, Some(n), phone) == TrackSpec(t, Some(n), None)
  {
  }

  /** Only the last four characters of the given phone are compared: any input ending in the
      stored phone's last four digits passes, and so does any input of one to four characters
      that the stored phone ends with. */
  lemma {:induction false} GateComparesSuffix(stored: string, phone: string)
    requires stored != "" && phone != ""
    requires EndsWith(stored, LastChars(phone, 4))
    ensures !PhoneMismatch(Some(phone), Some(stored))
  {
  }

  lemma {:induction false} OwnPhonePasses(stored: string, phone: string)
    requires stored != "" && EndsWith(phone, LastChars(stored, 4)) && |phone| >= 4 && |stored| >= 4
    ensures !PhoneMismatch(Some(phone), Some(stored))
  {
    var s4 := LastChars(stored, 4);
    var p4 := LastChars(phone, 4);
    assert |s4| == 4 && |p4| == 4;
    assert p4 == phone[|phone| - 4..] == s4;
  }

  /** The history is returned oldest first and holds exactly the order's entries. */
  lemma {:induction false} HistoryOldestFirst(t: Tables, n: Option<string>, phone: Option<string>)
    requires TrackSpec(t, n, phone).Success?
    ensures var h := TrackSpec(t, n, phone).body.statusHistory;
            OldestFirstOrder(h) && multiset(h) == multiset(FindOrder(t, n.value).value.history)
  {
  }
}
