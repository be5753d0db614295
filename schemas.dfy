/** The zod schemas of src/lib/schemas.ts as issue lists. zod checks the fields of an object in
    declaration order and the checks of a field in chain order, records every failing check,
    and the routes answer with the message of the first issue. A body is accepted exactly when
    its issue list is empty. Request bodies are taken to be well-typed JSON: numbers are
    integers and every required field is present. */
module Schemas {
  import opened Base
  import opened Text

  // ---------------------------------------------------------------------------------------------
  // Issue lists

  function FirstIssue(issues: seq<string>): (r: Option<string>)
    ensures r.None? <==> issues == []
    ensures r.Some? ==> r.value == issues[0]
  {
    if issues == [] then None else Some(issues[0])
  }

  function Check(ok: bool, message: string): (r: seq<string>)
    ensures r == [] <==> ok
  {
    if ok then [] else [message]
  }

  function AtLeastMessage(n: nat): string { "String must contain at least " + NatToString(n) + " character(s)" }
  function AtMostMessage(n: nat): string { "String must contain at most " + NatToString(n) + " character(s)" }
  function ExactlyMessage(n: nat): string { "String must contain exactly " + NatToString(n) + " character(s)" }
  function NumberAtMostMessage(n: nat): string { "Number must be less than or equal to " + NatToString(n) }
  function NumberAtLeastMessage(n: nat): string { "Number must be greater than or equal to " + NatToString(n) }
  function ArrayAtLeastMessage(n: nat): string { "Array must contain at least " + NatToString(n) + " element(s)" }
  function ArrayAtMostMessage(n: nat): string { "Array must contain at most " + NatToString(n) + " element(s)" }

  /** An optional string field with a maximum length: absent is fine. */
  function OptionalMax(s: Option<string>, n: nat, message: string): (r: seq<string>)
    ensures r == [] <==> (s.None? || |s.value| <= n)
  {
    if s.Some? then Check(|s.value| <= n, message) else []
  }

  // ---------------------------------------------------------------------------------------------
  // Field formats

  /** /^[6-9]\d{9}$/ */
  predicate IsIndianMobile(s: string) {
    |s| == 10 && '6' <= s[0] <= '9' && AllDigits(s)
  }

  /** /^\d{6}$/ */
  predicate IsSixDigits(s: string) {
    |s| == 6 && AllDigits(s)
  }

  /** The characters allowed before the last character of an address's local part, and those
      allowed as its last character. */
  predicate IsLocalChar(c: char) { IsAlnum(c) || c == '_' || c == '\'' || c == '+' || c == '-' || c == '.' }
  predicate IsLocalEndChar(c: char) { IsAlnum(c) || c == '_' || c == '+' || c == '-' }

  /** s split at every occurrence of sep (String.prototype.split with a one-character separator). */
  function SplitOn(s: string, sep: char): (parts: seq<string>)
    ensures |parts| >= 1
    ensures forall k :: 0 <= k < |parts| ==> sep !in parts[k]
    decreases |s|
  {
    var head := BeforeFirst(s, sep);
    if |head| == |s| then [s] else [head] + SplitOn(s[|head| + 1..], sep)
  }

  predicate IsDomainLabel(l: string) {
    l != [] && IsAlnum(l[0]) && forall i :: 0 <= i < |l| ==> (IsAlnum(l[i]) || l[i] == '-')
  }

  predicate IsTopLevel(l: string) {
    |l| >= 2 && forall i :: 0 <= i < |l| ==> IsLetter(l[i])
  }

  /** zod's email regex, compared case-insensitively:
      /^(?!\.)(?!.*\.\.)([A-Z0-9_'+\-\.]*)[A-Z0-9_+-]@([A-Z0-9][A-Z0-9\-]*\.)+[A-Z]{2,}$/i
      Neither part may contain '@', so the address splits at its only '@'. */
  predicate IsEmail(s: string) {
    var local := BeforeFirst(s, '@');
    |local| < |s| &&
    var domain := s[|local| + 1..];
    var labels := SplitOn(domain, '.');
    local != [] && local[0] != '.' &&
    (forall i :: 0 <= i < |local| ==> IsLocalChar(local[i])) &&
    IsLocalEndChar(local[|local| - 1]) &&
    (forall i :: 0 <= i < |local| - 1 ==> !(local[i] == '.' && local[i + 1] == '.')) &&
    |labels| >= 2 &&
    (forall k :: 0 <= k < |labels| - 1 ==> IsDomainLabel(labels[k])) &&
    IsTopLevel(labels[|labels| - 1])
  }

  // ---------------------------------------------------------------------------------------------
  // RegisterSchema

  datatype RegisterBody = RegisterBody(name: string, email: string, phone: Option<string>, password: string)

  /** phone: regex(...).optional().or(z.literal('')) */
  predicate RegisterPhoneOk(phone: Option<string>) {
    phone.None? || phone.value == "" || IsIndianMobile(phone.value)
  }

  function RegisterIssues(b: RegisterBody): (issues: seq<string>)
    ensures issues == [] <==>
      2 <= |b.name| <= 100 && IsEmail(b.email) && RegisterPhoneOk(b.phone) && 8 <= |b.password| <= 128
  {
    Check(|b.name| >= 2, "Name must be at least 2 characters") + Check(|b.name| <= 100, AtMostMessage(100)) +
    Check(IsEmail(b.email), "Invalid email address") +
    Check(RegisterPhoneOk(b.phone), "Enter a valid 10-digit Indian mobile number") +
    Check(|b.password| >= 8, "Password must be at least 8 characters") +
    Check(|b.password| <= 128, "Password is too long")
  }

  // ---------------------------------------------------------------------------------------------
  // OrderItemSchema and OrderSchema

  datatype PaymentMethod = UPI | CARD | NETBANKING | COD | EMI | WALLET

  function ParsePaymentMethod(s: string): (m: Option<PaymentMethod>)
    ensures m.Some? <==> s in {"UPI", "CARD", "NETBANKING", "COD", "EMI", "WALLET"}
    ensures m.Some? ==> PaymentMethodName(m.value) == s
  {
    match s
    case "UPI" => Some(UPI)
    case "CARD" => Some(CARD)
    case "NETBANKING" => Some(NETBANKING)
    case "COD" => Some(COD)
    case "EMI" => Some(EMI)
    case "WALLET" => Some(WALLET)
    case _ => None
  }

  function PaymentMethodName(m: PaymentMethod): string {
    match m
    case UPI => "UPI"
    case CARD => "CARD"
    case NETBANKING => "NETBANKING"
    case COD => "COD"
    case EMI => "EMI"
    case WALLET => "WALLET"
  }

  function PaymentMethodIssues(s: string): (issues: seq<string>)
    ensures issues == [] <==> ParsePaymentMethod(s).Some?
  {
    Check(ParsePaymentMethod(s).Some?,
          "Invalid enum value. Expected 'UPI' | 'CARD' | 'NETBANKING' | 'COD' | 'EMI' | 'WALLET', received '" + s + "'")
  }

  datatype ItemBody = ItemBody(variantId: string, quantity: int)

  function OrderItemIssues(i: ItemBody): (issues: seq<string>)
    ensures issues == [] <==> |i.variantId| >= 1 && 1 <= i.quantity <= 10
  {
    Check(|i.variantId| >= 1, "Variant ID is required") +
    Check(i.quantity >= 1, "Quantity must be at least 1") + Check(i.quantity <= 10, NumberAtMostMessage(10))
  }

  /** The issues of every element, in index order. */
  function EachItemIssues(items: seq<ItemBody>, f: ItemBody -> seq<string>): (issues: seq<string>)
    ensures issues == [] <==> forall k :: 0 <= k < |items| ==> f(items[k]) == []
  {
    if items == [] then [] else f(items[0]) + EachItemIssues(items[1..], f)
  }

  /** The JSON body of an order request. `whatsappOptIn` is None when absent (zod defaults it
      to false). */
  datatype OrderBody = OrderBody(
    customerId: Option<string>,
    customerName: string,
    customerEmail: string,
    customerPhone: string,
    whatsappOptIn: Option<bool>,
    addressLine1: string,
    addressLine2: Option<string>,
    city: string,
    state: string,
    pincode: string,
    items: seq<ItemBody>,
    paymentMethod: string,
    couponCode: Option<string>,
    utmSource: Option<string>,
    utmMedium: Option<string>,
    utmCampaign: Option<string>)

  predicate SharedContactValid(b: OrderBody) {
    2 <= |b.customerName| <= 100 && IsEmail(b.customerEmail) && IsIndianMobile(b.customerPhone)
  }

  predicate SharedAddressValid(b: OrderBody) {
    5 <= |b.addressLine1| <= 200 && (b.addressLine2.None? || |b.addressLine2.value| <= 200) &&
    2 <= |b.city| <= 100 && 2 <= |b.state| <= 100 && IsSixDigits(b.pincode)
  }

  predicate SharedItemsValid(b: OrderBody) {
    |b.items| >= 1 && (forall k :: 0 <= k < |b.items| ==> OrderItemIssues(b.items[k]) == []) &&
    ParsePaymentMethod(b.paymentMethod).Some?
  }

  predicate SharedExtrasValid(b: OrderBody) {
    (b.couponCode.None? || |b.couponCode.value| <= 50) &&
    (b.utmSource.None? || |b.utmSource.value| <= 100) &&
    (b.utmMedium.None? || |b.utmMedium.value| <= 100) &&
    (b.utmCampaign.None? || |b.utmCampaign.value| <= 100)
  }

  predicate SharedOrderValid(b: OrderBody) {
    SharedContactValid(b) && SharedAddressValid(b) && SharedItemsValid(b) && SharedExtrasValid(b)
  }

  function SharedContactIssues(b: OrderBody): (issues: seq<string>)
    ensures issues == [] <==> SharedContactValid(b)
  {
    Check(|b.customerName| >= 2, "Name must be at least 2 characters") +
    Check(|b.customerName| <= 100, AtMostMessage(100)) +
    Check(IsEmail(b.customerEmail), "Invalid email address") +
    Check(IsIndianMobile(b.customerPhone), "Enter a valid 10-digit Indian mobile number")
  }

  function SharedAddressIssues(b: OrderBody): (issues: seq<string>)
    ensures issues == [] <==> SharedAddressValid(b)
  {
    Check(|b.addressLine1| >= 5, "Address is too short") + Check(|b.addressLine1| <= 200, AtMostMessage(200)) +
    OptionalMax(b.addressLine2, 200, AtMostMessage(200)) +
    Check(|b.city| >= 2, "City is required") + Check(|b.city| <= 100, AtMostMessage(100)) +
    Check(|b.state| >= 2, "State is required") + Check(|b.state| <= 100, AtMostMessage(100)) +
    Check(|b.pincode| == 6, "Pincode must be 6 digits") + Check(IsSixDigits(b.pincode), "Invalid pincode")
  }

  function SharedItemsIssues(b: OrderBody): (issues: seq<string>)
    ensures issues == [] <==> SharedItemsValid(b)
  {
    Check(|b.items| >= 1, "At least one item is required") + EachItemIssues(b.items, OrderItemIssues) +
    PaymentMethodIssues(b.paymentMethod)
  }

  function SharedExtrasIssues(b: OrderBody): (issues: seq<string>)
    ensures issues == [] <==> SharedExtrasValid(b)
  {
    OptionalMax(b.couponCode, 50, AtMostMessage(50)) +
    OptionalMax(b.utmSource, 100, AtMostMessage(100)) +
    OptionalMax(b.utmMedium, 100, AtMostMessage(100)) +
    OptionalMax(b.utmCampaign, 100, AtMostMessage(100))
  }

  /** OrderSchema of src/lib/schemas.ts, the stricter of the two order schemas. */
  function SharedOrderIssues(b: OrderBody): (issues: seq<string>)
    ensures issues == [] <==> SharedOrderValid(b)
  {
    SharedContactIssues(b) + SharedAddressIssues(b) + SharedItemsIssues(b) + SharedExtrasIssues(b)
  }

  // ---------------------------------------------------------------------------------------------
  // ReviewSchema

  datatype ReviewBody = ReviewBody(productId: string, rating: int, title: Option<string>, body: string)

  function ReviewIssues(b: ReviewBody): (issues: seq<string>)
    ensures issues == [] <==>
      |b.productId| >= 1 && 1 <= b.rating <= 5 && (b.title.None? || |b.title.value| <= 100) &&
      10 <= |b.body| <= 1000
  {
    Check(|b.productId| >= 1, "Product ID is required") +
    Check(b.rating >= 1, "Rating must be at least 1") + Check(b.rating <= 5, "Rating must be at most 5") +
    OptionalMax(b.title, 100, "Title must be 100 characters or less") +
    Check(|b.body| >= 10, "Review must be at least 10 characters") +
    Check(|b.body| <= 1000, "Review must be 1000 characters or less")
  }

  // ---------------------------------------------------------------------------------------------
  // CouponValidateSchema

  /** code: 1..50 characters, then upper-cased; subtotal >= 0. */
  function ParseCouponValidate(code: string, subtotal: int): (r: Result<(string, int)>)
    ensures r.Ok? <==> 1 <= |code| <= 50 && subtotal >= 0
    ensures r.Ok? ==> r.value == (Upper(code), subtotal)
    ensures r.Err? ==> (r.message in {AtLeastMessage(1), AtMostMessage(50), NumberAtLeastMessage(0)})
  {
    var issues := Check(|code| >= 1, AtLeastMessage(1)) + Check(|code| <= 50, AtMostMessage(50)) +
                  Check(subtotal >= 0, NumberAtLeastMessage(0));
    if issues == [] then Ok((Upper(code), subtotal)) else Err(issues[0])
  }

  // ---------------------------------------------------------------------------------------------
  // ChatSchema

  datatype ChatMessage = ChatMessage(role: string, content: string)

  function ChatMessageIssues(m: ChatMessage): (issues: seq<string>)
    ensures issues == [] <==> (m.role == "user" || m.role == "assistant") && 1 <= |m.content| <= 2000
  {
    Check(m.role == "user" || m.role == "assistant",
          "Invalid enum value. Expected 'user' | 'assistant', received '" + m.role + "'") +
    Check(|m.content| >= 1, AtLeastMessage(1)) + Check(|m.content| <= 2000, AtMostMessage(2000))
  }

  function EachMessageIssues(ms: seq<ChatMessage>): (issues: seq<string>)
    ensures issues == [] <==> forall k :: 0 <= k < |ms| ==> ChatMessageIssues(ms[k]) == []
  {
    if ms == [] then [] else ChatMessageIssues(ms[0]) + EachMessageIssues(ms[1..])
  }

  /** zod checks an array's length before its elements. */
  function ChatIssues(messages: seq<ChatMessage>): (issues: seq<string>)
    ensures issues == [] <==>
      1 <= |messages| <= 50 &&
      forall k :: 0 <= k < |messages| ==>
        (messages[k].role == "user" || messages[k].role == "assistant") && 1 <= |messages[k].content| <= 2000
  {
    Check(|messages| >= 1, ArrayAtLeastMessage(1)) + Check(|messages| <= 50, ArrayAtMostMessage(50)) +
    EachMessageIssues(messages)
  }

  // ---------------------------------------------------------------------------------------------
  // Facts about the formats

  lemma EmailAccepted()
    ensures IsEmail("a@b.co")
  {
    assert BeforeFirst("a@b.co", '@') == "a";
    assert "a@b.co"[2..] == "b.co";
    assert BeforeFirst("b.co", '.') == "b";
    assert "b.co"[2..] == "co";
    assert BeforeFirst("co", '.') == "co";
    assert SplitOn("b.co", '.') == ["b", "co"];
  }

  /** A leading dot and a domain without a dot are both refused. */
  lemma EmailRefused()
    ensures !IsEmail(".a@b.co")
    ensures !IsEmail("a@b")
  {
    assert BeforeFirst(".a@b.co", '@') == ".a";
    assert BeforeFirst("a@b", '@') == "a";
    assert "a@b"[2..] == "b";
    assert BeforeFirst("b", '.') == "b";
    assert SplitOn("b", '.') == ["b"];
  }

  /** An order phone is ten ASCII digits whose first is 6..9; the leading "+91" or a space makes
      it invalid. */
  lemma MobileExamples()
    ensures IsIndianMobile("9876543210")
    ensures !IsIndianMobile("5876543210")
    ensures !IsIndianMobile("+919876543210")
  {
  }

  /** The phone of a registration may be absent or empty; anything else must be a mobile number. */
  lemma RegisterAllowsEmptyPhone(name: string, email: string, password: string)
    requires 2 <= |name| <= 100 && IsEmail(email) && 8 <= |password| <= 128
    ensures RegisterIssues(RegisterBody(name, email, Some(""), password)) == []
    ensures RegisterIssues(RegisterBody(name, email, None, password)) == []
    ensures RegisterIssues(RegisterBody(name, email, Some("12345"), password)) ==
            ["Enter a valid 10-digit Indian mobile number"]
  {
  }
}
