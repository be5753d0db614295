# Nopego storefront core in Dafny

Nopego is a direct-to-consumer storefront with an admin console for a footwear brand. It is written with Next.js and Prisma. This project models its order pipeline and the smaller rules around it, and proves properties of the model with Dafny.

**The order pipeline.**
- The order route prices the cart, checks stock line by line and applies a coupon. It then writes the customer, the address and the order, and settles a cash-on-delivery (COD) order at once.
- The payment callback settles an online order in one transaction, with an idempotency guard on the payment status.
- The coupon probe is a read-only check of a coupon code.
- The checkout page computes the quote it shows and shapes the request it sends.
- The pricing and naming helpers are pure functions.

**The rules around it.**
- the client cart store;
- the fixed-window rate limiter;
- the validation schemas;
- the routing middleware;
- the admin inventory pages and product creation;
- admin coupon creation;
- the abandoned-cart reminder job;
- password reset (issuing and consuming a token);
- registration;
- the account profile, addresses and wishlist;
- reviews;
- order tracking;
- marketing broadcasts;
- the analytics dashboard's integer figures.

**How the store is modelled.**
- The database is the class `Store.Db`. Its fields are the tables, each a map from row id to row. Two unique indexes are kept as index maps: customer email and order number. The variant table's unique index on `sku` is checked by the product create, which fails when the body repeats a SKU or names one already stored.
- Each route handler is a method on a `Db`. It is proved equal, on the snapshot of the tables, to a specification function that returns the new tables and the reply.
- The lemmas are stated about those specification functions.
- Client-side state is a class per page or store: the cart, the checkout form, the add-product form and the stock editor. The rate limiter is a class around its map.
- Money is whole rupees.
- `Math.round` of a single division `p / q` of whole numbers is rounding half up of the rational p/q. The source rounds that way for the average order value and the coupon PERCENT discount, and the model is exact there. Two percentages round a product of doubles instead; see the `Utils.DiscountPercent` and `Analytics.StepPct` lines under "Left out".
- Times are milliseconds since the epoch.

**Parameters.** These become inputs to the model:
- the clock and random values (UUID suffixes, reset tokens, coupon suffixes);
- the ids the database assigns;
- the gateway's order id;
- the HMAC digest behind the payment signature;
- bcrypt;
- whether each swallowed write or send succeeds.

## Model

| member | source | states |
|---|---|---|
| Utils.CalculateShipping | src/lib/utils.ts:54-56 | the fee is 0 from the free-shipping threshold upwards and the shipping charge below it |
| Utils.ShippingDefaults | src/lib/utils.ts:54-56 | with the default 999 and 49 the fee is 0 or 49, and it is 0 exactly from 999 upwards |
| Utils.ShippingMonotone | src/lib/utils.ts:54-56 | a larger subtotal never pays more shipping |
| Utils.IsCodAvailable | src/lib/utils.ts:58-60 | cash on delivery is available exactly from the minimum (299 by default) upwards |
| Utils.GenerateOrderNumber | src/lib/utils.ts:8-11 | the number is "NPG-", the year, "-" and the count padded to at least five digits |
| Utils.OrderSuffix | src/lib/utils.ts:10 | the padded count has at least five characters, all digits |
| Utils.OrderSuffixValue | src/lib/utils.ts:10 | padding never truncates: the digits still denote the count |
| Utils.OrderNumberInjective | src/lib/utils.ts:8-11 | within one year, two counts give the same order number only if they are equal |
| Utils.OrderNumberExample | src/lib/utils.ts:8-11 | year 2025 and count 42 give NPG-2025-00042; 123456 is not cut to five digits |
| Utils.DiscountPercent | src/lib/utils.ts:42-44 | an original price of 0 has no defined percentage; otherwise the exact markdown ratio as a percentage rounded half up (the source's double rounding is under Left out) |
| Utils.DiscountPercentRange | src/lib/utils.ts:42-44 | no markdown is 0%, a markdown to zero is 100%, anything between lies in 0..100 |
| Utils.DiscountPercentExample | src/lib/utils.ts:42-44 | 2999 to 1999 is 33%, 1000 to 995 is 1% (0.5 rounds up), an original of 0 has none |
| Utils.LowerCase | src/lib/utils.ts:48 | no upper-case ASCII letter is left |
| Utils.Filter | src/lib/utils.ts:49 | only word characters, white space and '-' survive, so lower-cased input leaves a-z, 0-9 and separators |
| Utils.Collapse | src/lib/utils.ts:50 | every run of separators becomes one '-'; the first character is kept when it is not a separator |
| Utils.CollapseShape | src/lib/utils.ts:50 | collapsing filtered text leaves only slug characters and no two dashes in a row |
| Utils.DropLeadingDashes | src/lib/utils.ts:51 | the result is a suffix of the input that does not start with '-' |
| Utils.DropTrailingDashes | src/lib/utils.ts:51 | the result is a prefix of the input that does not end with '-' |
| Utils.Slugify | src/lib/utils.ts:46-52 | the slug holds only a-z, 0-9 and '-', with no '-' at either end and no two '-' in a row |
| Utils.SlugifyOfSlug | src/lib/utils.ts:46-52 | a well-formed slug is left as it is |
| Utils.SlugifyIdempotent | src/lib/utils.ts:46-52 | slugifying a slug again changes nothing |
| Coupons.CheckCoupon | src/app/api/coupons/validate/route.ts:16-29 | the chain accepts exactly an active, unexpired, unexhausted coupon whose minimum the subtotal meets, and otherwise names the first failing check: not found, inactive, expired, exhausted, below minimum |
| Coupons.LookupKeyIdempotent | src/app/api/coupons/validate/route.ts:13 | upper-casing and trimming a key again gives the same key |
| Coupons.Discount | src/app/api/coupons/validate/route.ts:31-36 | PERCENT is subtotal × value / 100 rounded to the nearest integer; FLAT is min(value, subtotal) |
| Coupons.DiscountBounded | src/app/api/orders/route.ts:107-111 | with a non-negative subtotal and value, and a PERCENT value of at most 100, the discount lies between 0 and the subtotal |
| Coupons.PercentAboveHundred | src/app/api/coupons/validate/route.ts:32-33 | a PERCENT value of 150 on 1000 gives 1500, more than the subtotal |
| Coupons.ExpiryIsStrict | src/app/api/coupons/validate/route.ts:18 | a coupon that expires exactly now is accepted, and refused as expired a millisecond later |
| Coupons.ZeroCapIsNoCap | src/app/api/coupons/validate/route.ts:21 | a cap of 0 or none means no cap, whatever the usage count |
| Coupons.ValidateProbe | src/app/api/coupons/validate/route.ts:4-47 | a missing or empty code or an undefined subtotal gives 400; otherwise the probe looks up the upper-cased, trimmed code, answers with the check chain's first error, or with the stored code, the discount, the type and the value |
| Coupons.ProbeReturnsStoredCode | src/app/api/coupons/validate/route.ts:38-43 | in a table keyed by code, the code in the reply is the normalised input |
| Coupons.SeedExamples | prisma/seed.ts:226-266 | the seeded coupons: SPORT40 on 5497 gives 2199, WELCOME10 on 1005 gives 101, FLAT200 on 1499 gives 200, and FLAT200 refuses 1498 as below its minimum |
| Orders.RouteOrderIssues | src/app/api/orders/route.ts:12-31 | the route's own schema accepts a body exactly when name ≥ 2, a valid email, phone ≥ 10, line1 ≥ 5, city and state ≥ 2, a 6-character pincode, every quantity ≥ 1 and a known payment method |
| Orders.RouteContactIssues | src/app/api/orders/route.ts:14-16 | no issue exactly when the contact fields meet their minimums |
| Orders.RouteAddressIssues | src/app/api/orders/route.ts:18-22 | no issue exactly when the address fields meet their lengths |
| Orders.RouteItemsIssues | src/app/api/orders/route.ts:23-26 | no issue exactly when every quantity is at least 1 and the payment method is one of the six |
| Orders.RouteItemIssues | src/app/api/orders/route.ts:24 | a line passes exactly when its quantity is at least 1 |
| Orders.SharedSchemaIsStricter | src/app/api/orders/route.ts:12-31 | every body the shared OrderSchema accepts is accepted by the route's schema |
| Orders.RouteSchemaIsLooser | src/app/api/orders/route.ts:23-25 | the route accepts an empty item list, a quantity of 11 and an empty variant id, which the shared schema refuses |
| Orders.StockFault | src/app/api/orders/route.ts:44-55 | no fault exactly when every line names a variant with stock ≥ its quantity, each line checked alone; a fault is a 400, or a 500 only when a short line's product row is missing |
| Orders.CheckStock | src/app/api/orders/route.ts:44-55 | the loop returns the reply of the first failing line, as StockFault |
| Orders.LineFor | src/app/api/orders/route.ts:59-75 | a line keeps the variant and quantity, is priced at `discountedPrice ?? basePrice`, and its total is price × quantity |
| Orders.PriceLines | src/app/api/orders/route.ts:59-75 | lines exist exactly when every variant's product exists, one per item in order, each LineFor that item |
| Orders.PriceItems | src/app/api/orders/route.ts:58-75 | the map loop builds the PriceLines lines and accumulates their total into `subtotal` |
| Orders.CouponStep | src/app/api/orders/route.ts:80-114 | no code or an empty one gives no discount; otherwise the shared check chain decides, and the result carries the discount and the stored coupon's code |
| Orders.QuoteOrder | src/app/api/orders/route.ts:44-116 | the quote stands exactly when stock, pricing and coupon pass; then subtotal is the sum of line totals, shipping is on that pre-discount subtotal and total is max(0, subtotal + shipping − discount) |
| Orders.Quote | src/app/api/orders/route.ts:44-116 | the method computes QuoteOrder and writes nothing |
| Orders.UuidSuffix | src/app/api/orders/route.ts:162 | the suffix has at most six characters and no dash |
| Orders.OrderNumber | src/app/api/orders/route.ts:163 | the number starts with "NPG-" |
| Orders.ResolveCustomer | src/app/api/orders/route.ts:119-143 | an existing `customerId` is used as is; otherwise the email upsert; the customer found is in the new table and only customers and the email index change |
| Orders.EmailUpsertReuses | src/app/api/orders/route.ts:124-139 | with no usable customerId, a customer with the email is reused with name, phone and opt-in overwritten, and no row or index entry is added |
| Orders.ResolveCustomerKeepsCounters | src/app/api/orders/route.ts:119-139 | the customer stage never changes an existing customer's order counters |
| Orders.ResolveCustomerKeepsValid | src/app/api/orders/route.ts:124-139 | the upsert keeps the email index and the one-customer-per-email rule |
| Orders.Resolve | src/app/api/orders/route.ts:119-143 | the customer stage as a method: the store and the customer id are those of ResolveCustomer, and a refused create changes nothing |
| Orders.SettleCod | src/app/api/orders/route.ts:200-224 | the COD step succeeds exactly when every line's variant exists; it decrements the stock, bumps the customer's counters and then, with a coupon code, the coupon's usage |
| Orders.SettleCodTransaction | src/app/api/orders/route.ts:201-224 | the loop over the lines commits every decrement and the customer update together, or nothing |
| Orders.Write | src/app/api/orders/route.ts:145-224 | the address, the order and the COD step as a method, equal to WriteOrder |
| Orders.Record | src/app/api/orders/route.ts:118-224 | the writes, equal to RecordOrder: the customer stage and then WriteOrder |
| Orders.PlaceOrder | src/app/api/orders/route.ts:33-305 | the whole route on the store equals PlaceOrderSpec |
| Orders.PlaceOrderStages | src/app/api/orders/route.ts:36-116 | a successful request passed the schema and the quote, and then the writes decided |
| Orders.RecordOrderStages | src/app/api/orders/route.ts:118-224 | a successful run of the writes created the customer (or reused one), the address and the order, and for COD settled |
| Orders.RecordOrderFailsWith500 | src/app/api/orders/route.ts:118-224 | once the quote stands, every failure is a 500 |
| Orders.BadRequestChangesNothing | src/app/api/orders/route.ts:36-116 | every 400 (schema, stock, coupon) leaves the store unchanged |
| Orders.StockRejection | src/app/api/orders/route.ts:44-55 | an unknown variant or a short line rejects the request with the stock reply and writes nothing |
| Orders.CouponRejection | src/app/api/orders/route.ts:83-105 | a coupon the check chain refuses rejects the request with the chain's message, and writes nothing |
| Orders.DuplicateLinesPass | src/app/api/orders/route.ts:44-55 | two one-unit lines for a variant with one unit left both pass, and a COD order takes that stock to −1 |
| Orders.RecordedRow | src/app/api/orders/route.ts:173-197 | the row of a successful run of the writes is the first-stage order, which the COD step leaves alone, and the reply is the placed reply |
| Orders.PlacedRow | src/app/api/orders/route.ts:173-197 | the same for the whole route |
| Orders.PlacedOrderPricing | src/app/api/orders/route.ts:58-116 | the created order's lines are priced at `discountedPrice ?? basePrice` × quantity; subtotal is their sum, shipping is on it, total is max(0, subtotal + shipping − discount); the reply repeats order id, total and discount |
| Orders.NewOrderShape | src/app/api/orders/route.ts:166-197 | the new order is PENDING payment, CONFIRMED for COD and PENDING otherwise, with one history entry of that status; a gateway id is stored exactly for non-COD orders |
| Orders.OpenedKeepsValid | src/app/api/orders/route.ts:173-197 | creating the order with a fresh id and number keeps the store's invariants |
| Orders.SettleCodKeepsValid | src/app/api/orders/route.ts:200-224 | the COD step keeps the store's invariants |
| Orders.RecordedOrderKeepsValid | src/app/api/orders/route.ts:118-224 | a successful run of the writes keeps the store's invariants |
| Orders.RefusedOrderKeepsValid | src/app/api/orders/route.ts:118-224 | a failed run of the writes keeps them, whatever it wrote before failing |
| Orders.RecordOrderKeepsValid | src/app/api/orders/route.ts:118-224 | every run of the writes keeps the store's invariants |
| Orders.PlaceOrderKeepsValid | src/app/api/orders/route.ts:33-305 | the route keeps the unique indexes and the coupon keying intact |
| Orders.OneCustomerPerEmail | src/app/api/orders/route.ts:124-139 | in a valid store, placing an order never leaves two customers with one email |
| Orders.CodSettlesAtOnce | src/app/api/orders/route.ts:199-224 | a placed COD order took every line's quantity from its variant and bumped its customer's counters by one order and the total, then the coupon's usage if a code was applied |
| Orders.OnlineOrderDefersSettlement | src/app/api/orders/route.ts:165-197 | a placed online order leaves stock, coupons and every customer's order counters as they were |
| Payments.PaidOrder | src/app/api/payments/verify/route.ts:41-51 | the settled row is PAID and CONFIRMED with the payment id, has exactly one CONFIRMED entry appended to its history, and is otherwise unchanged |
| Payments.Settle | src/app/api/payments/verify/route.ts:40-66 | the transaction succeeds exactly when the order's customer and every line's variant exist; then it marks the order paid, bumps the customer's counters by one order and the total, and decrements every line's stock, all at once |
| Payments.SettleTransaction | src/app/api/payments/verify/route.ts:40-66 | the loop over the lines commits all the writes of Settle or none |
| Payments.VerifyPayment | src/app/api/payments/verify/route.ts:9-151 | the route on the store equals VerifySpec: four guards, the PAID guard, the transaction, then the coupon bump |
| Payments.GuardOrder | src/app/api/payments/verify/route.ts:13-32 | a missing field gives 400, then a bad signature 400, then an unknown order 404, and none of them writes |
| Payments.FailureChangesNothing | src/app/api/payments/verify/route.ts:13-66 | no failure of the route changes the store, a failed transaction included |
| Payments.PaidIsNoOp | src/app/api/payments/verify/route.ts:34-37 | an order already PAID is answered with its number and nothing changes |
| Payments.VerifyIdempotent | src/app/api/payments/verify/route.ts:34-74 | repeating a successful callback, at any later time and whatever the coupon write does, changes nothing and gives the same reply |
| Payments.SettlementEffect | src/app/api/payments/verify/route.ts:40-74 | a settlement marks the order paid with one history entry, bumps its customer's counters, takes each line's quantity from its variant, bumps the coupon if the order has a code, and touches no other table |
| Payments.StoredGatewayIdIgnored | src/app/api/payments/verify/route.ts:17-40 | a callback whose gateway id differs from the order's stored one is accepted once its signature verifies |
| Payments.SettlementDecrementsEveryTime | src/app/api/payments/verify/route.ts:60-65 | each variant's stock drops by the summed quantity of its lines, with no lower bound |
| Payments.UnpaidOrderSettles | src/app/api/payments/verify/route.ts:34-66 | a signed callback for an unpaid order whose customer and variants exist is accepted and takes the stock |
| Payments.CodOrderSettledTwice | src/app/api/payments/verify/route.ts:34-66 | for a COD order placed by the order route, a callback with a valid signature is accepted and takes its stock a second time |
| Payments.CodPlacedStock | src/app/api/orders/route.ts:199-216 | a placed COD order's customer exists and its stock is already taken |
| Payments.CodPlacedLines | src/app/api/orders/route.ts:59-75 | the placed order's lines carry the body's variants and quantities |
| Payments.SettleAgain | src/app/api/payments/verify/route.ts:34-66 | an unpaid order whose lines' variants exist settles and takes its lines' stock from the current stock |
| Payments.DecrementedLinesKnown | src/app/api/orders/route.ts:201-207 | after a successful decrement every line's variant still exists |
| Payments.OrderLines | src/app/api/payments/verify/route.ts:60-65 | one (variant, quantity) pair per stored order item, in order: the pairs `Orders.Quantities` reads from the request |
| Store.DecrementStock | src/app/api/orders/route.ts:201-207 | the per-line decrements succeed exactly when every line's variant exists, and keep the variant table's keys |
| Store.DecrementStockEffect | src/app/api/payments/verify/route.ts:60-65 | each variant loses the summed quantity of its lines and nothing else about it changes |
| Store.RecordPurchase | src/app/api/payments/verify/route.ts:52-59 | one more order, the total added to the amount spent, the time recorded, nothing else changed |
| Store.BumpCouponUsage | src/app/api/payments/verify/route.ts:69-74 | the coupon with the code gains one use when the write succeeds; other coupons and a failed write change nothing |
| Store.FindByEmail | src/app/api/orders/route.ts:125-126 | the lookup through the unique email index finds a customer with that email, and in a valid store none is missed |
| Store.EmailsUnique | src/app/api/orders/route.ts:125-126 | in a valid store two customers never share an email |
| Store.SameEmailsKeepValid | src/app/api/orders/route.ts:127-131 | rewriting customer rows without changing their emails keeps the store valid |
| Store.NewCustomerKeepsValid | src/app/api/orders/route.ts:132-137 | a new customer row under a fresh id and unused email, with its index entry, keeps the store valid |
| Checkout.ClientShipping | src/app/checkout/page.tsx:32 | the page charges 0 or 49, and 0 exactly when the subtotal after the discount reaches 999 |
| Checkout.ClientTotal | src/app/checkout/page.tsx:33 | the shown total is never negative and never below subtotal − discount + shipping |
| Checkout.ServerTotal | src/app/api/orders/route.ts:77-116 | the total the order route stores, shipping on the pre-discount subtotal, is never negative |
| Checkout.CodOffered | src/app/checkout/page.tsx:34 | cash on delivery is offered exactly from a subtotal of 299, before any discount |
| Checkout.QuoteAgainstServer | src/app/checkout/page.tsx:32-33 | the page and the server price shipping differently exactly when the discount takes a subtotal of 999 or more below 999; the page never shows less than the server stores, and the gap is the shipping difference |
| Checkout.Welcome10OnThousand | src/app/checkout/page.tsx:32-33 | WELCOME10 on 1000 gives 100 off; the page shows 949 while the order is stored at 900 |
| Checkout.CodMinimumOnlyOnPage | src/app/checkout/page.tsx:34 | the page offers COD from 299, while the order route prices a COD order as any other and accepts its items whatever the subtotal |
| Checkout.HostedAmount | src/app/checkout/page.tsx:135 | the amount given to the hosted checkout is the shown total in paise |
| Checkout.HostedAmountMismatch | src/lib/razorpay.ts:8-11 | when the shipping rules differ, the widget is opened for 4900 paise more than the gateway order the server created |
| Checkout.ProbeKeyMatchesServer | src/app/checkout/page.tsx:71 | the page's trim-then-upper-case resolves to the same lookup key as the raw input |
| Checkout.ProbeRequest | src/app/checkout/page.tsx:62-72 | nothing is sent for a blank input; otherwise a non-empty code with the input's lookup key and the subtotal |
| Checkout.AppliedCouponHoldsAtOrder | src/app/checkout/page.tsx:62-79 | a coupon the probe accepted for the page is accepted by the order route with the same discount while the subtotal and the coupon table are unchanged |
| Checkout.ProbeAcceptedHoldsAtOrder | src/app/api/coupons/validate/route.ts:12-43 | the same for any accepted code whose lookup key is not blank |
| Checkout.CouponStepFound | src/app/api/orders/route.ts:80-114 | a present coupon that passes the checks gives its discount and stored code at order time |
| Checkout.NonEmpty | src/app/checkout/page.tsx:117-119 | an absent or empty query parameter is left out, any other is sent as it is |
| Checkout.ItemBodies | src/app/checkout/page.tsx:114 | each cart line is sent as its variant id and quantity, in order |
| Checkout.OrderRequest | src/app/checkout/page.tsx:95-120 | no request is made exactly when the cart is empty |
| Checkout.RequestShape | src/app/checkout/page.tsx:104-120 | a request from a valid cart passes the route's item and payment checks, carries COD or UPI, no customer id, a coupon only when one is applied, and the cart's lines |
| Checkout.CheckoutForm.TypeCoupon | src/app/checkout/page.tsx:315 | the coupon box holds the upper-cased text |
| Checkout.CheckoutForm.ChooseCod | src/app/checkout/page.tsx:253-257 | COD can be chosen only while it is offered |
| Checkout.CheckoutForm.ChooseOnline | src/app/checkout/page.tsx:243-246 | online payment can always be chosen |
| Checkout.CheckoutForm.ApplyCoupon | src/app/checkout/page.tsx:62-86 | the probe request is the one for the typed input; only a successful answer to a request that was made sets the code and discount, anything else leaves them |
| Checkout.CheckoutForm.RemoveCoupon | src/app/checkout/page.tsx:88-93 | the code and the box are empty and the discount is 0 |
| CartStore.Ids | src/hooks/useCart.ts:34 | the variant ids of the lines, in order |
| CartStore.Bumped | src/hooks/useCart.ts:36-37 | the line with the variant gains one unit; every other line, and the length, stay |
| CartStore.WithQuantity | src/hooks/useCart.ts:45-46 | the line with the variant takes the new quantity; every other line stays |
| CartStore.Removed | src/hooks/useCart.ts:41-42 | the variant's line is gone and exactly the other lines remain |
| CartStore.AddNew | src/hooks/useCart.ts:38-39 | a new variant is appended with quantity 1, adding 1 to the count and its price to the subtotal |
| CartStore.AddExisting | src/hooks/useCart.ts:35-37 | a known variant's line gains one unit in place, its price, name and image unchanged; other lines stay |
| CartStore.AddCountsOne | src/hooks/useCart.ts:32-40 | every add raises the item count by exactly one |
| CartStore.BumpedCount | src/hooks/useCart.ts:36-37 | bumping a line of a cart with one line per variant adds exactly one to the count |
| CartStore.UntouchedCount | src/hooks/useCart.ts:36-37 | bumping a variant that is not in the cart changes nothing |
| CartStore.AddKeepsUnique | src/hooks/useCart.ts:32-40 | adding keeps at most one line per variant |
| CartStore.RemoveKeepsUnique | src/hooks/useCart.ts:41-42 | removing keeps at most one line per variant |
| CartStore.UpdateKeepsUnique | src/hooks/useCart.ts:43-47 | updating keeps at most one line per variant |
| CartStore.ActionsKeepPositive | src/hooks/useCart.ts:32-47 | add, remove and update keep every line at one unit or more |
| CartStore.RemovedDistributes | src/hooks/useCart.ts:41-42 | filtering a concatenation filters each part, so the kept lines keep their order |
| CartStore.RemovedSingle | src/hooks/useCart.ts:41-42 | a single line is dropped exactly when it is the variant's |
| CartStore.UpdateSetsQuantity | src/hooks/useCart.ts:45-46 | a positive quantity sets only that variant's line |
| CartStore.UpdateToZeroRemoves | src/hooks/useCart.ts:44 | a quantity of 0 or less removes the line, as removeItem does |
| CartStore.FoldsSplit | src/hooks/useCart.ts:49-52 | the item count and the subtotal of a cart are the sums over its parts |
| CartStore.Cart.OpenCart | src/hooks/useCart.ts:30 | the drawer opens and the lines stay |
| CartStore.Cart.CloseCart | src/hooks/useCart.ts:31 | the drawer closes and the lines stay |
| CartStore.Cart.AddItem | src/hooks/useCart.ts:32-40 | the lines become the added cart, the drawer opens, the count rises by one and the one-line-per-variant invariant holds |
| CartStore.Cart.RemoveItem | src/hooks/useCart.ts:41-42 | the lines become the filtered cart, the drawer stays as it was, the invariant holds |
| CartStore.Cart.UpdateQuantity | src/hooks/useCart.ts:43-47 | the lines become the updated cart (removal for a quantity of 0 or less), the invariant holds |
| CartStore.Cart.ClearCart | src/hooks/useCart.ts:48 | no lines are left, so the count and the subtotal are 0 |
| Schemas.RegisterIssues | src/lib/schemas.ts:8-20 | no issue exactly when the name has 2..100 characters, the email is valid, the phone is absent, empty or a valid mobile number, and the password has 8..128 characters |
| Schemas.RegisterAllowsEmptyPhone | src/lib/schemas.ts:11-15 | an absent or empty phone passes, a five-digit one is refused with the mobile-number message |
| Schemas.MobileExamples | src/lib/schemas.ts:50-52 | 9876543210 is a mobile number; one starting with 5, or with a +91 prefix, is not |
| Schemas.EmailAccepted | src/lib/schemas.ts:10 | a@b.co is a valid email |
| Schemas.EmailRefused | src/lib/schemas.ts:10 | an address starting with a dot, or without a top-level domain, is refused |
| Schemas.OrderItemIssues | src/lib/schemas.ts:41-44 | a line passes exactly when its variant id is non-empty and its quantity lies in 1..10 |
| Schemas.EachItemIssues | src/lib/schemas.ts:59 | no issue exactly when every element passes |
| Schemas.ParsePaymentMethod | src/lib/schemas.ts:60 | exactly the six method names parse, each to the method of that name |
| Schemas.PaymentMethodIssues | src/lib/schemas.ts:60 | no issue exactly when the name parses |
| Schemas.SharedContactIssues | src/lib/schemas.ts:48-52 | no issue exactly when the name has 2..100 characters, the email is valid and the phone is ten digits starting with 6..9 |
| Schemas.SharedAddressIssues | src/lib/schemas.ts:54-58 | no issue exactly when line 1 has 5..200 characters, line 2 at most 200, city and state 2..100, and the pincode is six digits |
| Schemas.SharedItemsIssues | src/lib/schemas.ts:59-60 | no issue exactly when there is at least one line, every line passes and the payment method is one of the six |
| Schemas.SharedExtrasIssues | src/lib/schemas.ts:61-64 | no issue exactly when the coupon code has at most 50 characters and each UTM field at most 100 |
| Schemas.SharedOrderIssues | src/lib/schemas.ts:46-65 | no issue exactly when the contact, address, items and extras rules all hold |
| Schemas.ReviewIssues | src/lib/schemas.ts:69-77 | no issue exactly when the product id is non-empty, the rating lies in 1..5, the title has at most 100 characters and the body 10..1000 |
| Schemas.ParseCouponValidate | src/lib/schemas.ts:81-84 | accepted exactly when the code has 1..50 characters and the subtotal is non-negative, and then the code is upper-cased; a refusal carries one of the three length or range messages |
| Schemas.ChatMessageIssues | src/lib/schemas.ts:88-91 | no issue exactly when the role is user or assistant and the content has 1..2000 characters |
| Schemas.EachMessageIssues | src/lib/schemas.ts:94 | no issue exactly when every message passes |
| Schemas.ChatIssues | src/lib/schemas.ts:93-95 | no issue exactly when there are 1..50 messages and each has a valid role and 1..2000 characters of content |
| RateLimit.HitEntry | src/lib/rateLimit.ts:39-51 | no entry, or a call after its window, opens a new window of count 1 with limit − 1 remaining; a full window refuses with 0 remaining and leaves the entry alone; otherwise the count goes up by one and the reset time stays |
| RateLimit.Hit | src/lib/rateLimit.ts:33-52 | only the identifier's own entry is written, with the new entry and result of that call |
| RateLimit.WindowBound | src/lib/rateLimit.ts:46-51 | within a window, at most limit − count further calls succeed |
| RateLimit.AtMostLimitPerWindow | src/lib/rateLimit.ts:39-51 | for a limit of at least 1, a window lets through at most that many calls, its opening call included |
| RateLimit.BoundaryIsStrict | src/lib/rateLimit.ts:41 | a call exactly at the reset time is still refused by a full window, one a millisecond later opens a new one |
| RateLimit.IdentifiersIndependent | src/lib/rateLimit.ts:39-42 | another identifier's entry is never touched |
| RateLimit.Pruned | src/lib/rateLimit.ts:15-20 | an entry is kept exactly when its window has not ended, unchanged |
| RateLimit.Settings | src/lib/rateLimit.ts:55-66 | each preset has a limit of at least 1 and a window of at least a minute |
| RateLimit.Key | src/lib/rateLimit.ts:57-65 | each preset's key starts with its own prefix |
| RateLimit.PresetKeysDisjoint | src/lib/rateLimit.ts:57-65 | keys of two different presets never collide |
| RateLimit.ClientIp | src/lib/rateLimit.ts:72-79 | the first trimmed element of x-forwarded-for when non-empty, else x-real-ip, else cf-connecting-ip, else "unknown"; never empty |
| RateLimit.Limiter.RateLimit | src/lib/rateLimit.ts:33-52 | the method updates the map as Hit does and returns its result |
| RateLimit.Limiter.Limit | src/lib/rateLimit.ts:55-66 | a preset call is a call with the preset's key, limit and window |
| RateLimit.Limiter.Prune | src/lib/rateLimit.ts:15-20 | the loop deletes exactly the entries whose window has ended |
| Middleware.Decide | src/middleware.ts:5-31 | the request passes through exactly when every rule for its path is met; a redirect goes to /login or, without a callback URL, to /admin/login |
| Middleware.Gate | src/middleware.ts:41-43 | paths outside the three matcher prefixes pass through untouched; matched paths get the rules |
| Middleware.PrefixesDiffer | src/middleware.ts:10-24 | no path falls under two of the /account, /admin and /api/admin prefixes |
| Middleware.AccountNeedsToken | src/middleware.ts:10-14 | an /account path without a token is redirected to /login with that path as callback URL; any token passes |
| Middleware.AdminPagesNeedAdmin | src/middleware.ts:17-21 | an /admin path other than /admin/login is redirected to /admin/login unless the token's role is admin |
| Middleware.AdminLoginIsOpen | src/middleware.ts:17 | /admin/login passes with any token or none |
| Middleware.AdminApiNeedsAdmin | src/middleware.ts:24-28 | an /api/admin path without an admin token gets the 401 JSON reply, not a redirect |
| Middleware.MatcherNarrowsRules | src/middleware.ts:41-43 | /administrator would be redirected by the rules but is not matched, so it passes; /admin/orders is matched and redirected |
| InventoryAdd.SplitSpaces | src/app/admin/inventory/add/page.tsx:32 | at least one piece, none holding a space |
| InventoryAdd.FirstChars | src/app/admin/inventory/add/page.tsx:32 | at most one initial per word |
| InventoryAdd.LettersOnly | src/app/admin/inventory/add/page.tsx:33 | only ASCII letters remain |
| InventoryAdd.Take3 | src/app/admin/inventory/add/page.tsx:32-33 | the first three characters, or the whole text when shorter |
| InventoryAdd.NamePart | src/app/admin/inventory/add/page.tsx:32 | at most three characters from the name |
| InventoryAdd.ColorPart | src/app/admin/inventory/add/page.tsx:33 | at most three upper-case ASCII letters from the colour |
| InventoryAdd.GenerateSku | src/app/admin/inventory/add/page.tsx:30-35 | the SKU starts with "NPG-", ends with "-" and the size, and has at most 12 characters before the size |
| InventoryAdd.SameInitialsSameSku | src/app/admin/inventory/add/page.tsx:30-35 | two-word names with the same initials get the same SKU for one colour and size |
| InventoryAdd.SpeedRacerMeetsStreetRunner | src/app/admin/inventory/add/page.tsx:30-35 | "Speed Racer" and "Street Runner" get one SKU in White UK8 |
| InventoryAdd.SkuDeterminesSize | src/app/admin/inventory/add/page.tsx:30-35 | for one name and colour, two sizes give the same SKU exactly when they are equal |
| InventoryAdd.SplitAtSpace | src/app/admin/inventory/add/page.tsx:32 | the words of a + " " + b are the words of a followed by those of b |
| InventoryAdd.OneWord | src/app/admin/inventory/add/page.tsx:32 | a piece with no space is a single word |
| InventoryAdd.FirstCharsSplit | src/app/admin/inventory/add/page.tsx:32 | the initials of joined word lists are the joined initials |
| InventoryAdd.InitialsOfParts | src/app/admin/inventory/add/page.tsx:32 | the initials of two space-separated parts are those of each part |
| InventoryAdd.ExtraSpacesAddNothing | src/app/admin/inventory/add/page.tsx:32 | leading or repeated spaces add no initial |
| InventoryAdd.InitialOfWord | src/app/admin/inventory/add/page.tsx:32 | a word contributes its first character |
| InventoryAdd.NumberOr | src/app/admin/inventory/add/page.tsx:112 | a non-zero number is kept; an empty box or 0 gives the fallback |
| InventoryAdd.BulkRows | src/app/admin/inventory/add/page.tsx:106-114 | one row per size UK6..UK11, in order, with the bulk colour, the generated SKU, the parsed stock (0 when empty) and a low-stock level of 3 |
| InventoryAdd.BulkSkusDistinct | src/app/admin/inventory/add/page.tsx:106-114 | the six bulk rows have pairwise different SKUs |
| InventoryAdd.Edited | src/app/admin/inventory/add/page.tsx:134-137 | the row keeps its id; a colour or size edit regenerates the SKU from the current name; a SKU edit sets it; any other edit keeps it |
| InventoryAdd.LowStockZeroBecomesThree | src/app/admin/inventory/add/page.tsx:438-443 | typing 0 as the low-stock level stores 3, while a stock of 0 stays 0 |
| InventoryAdd.UpdatedRows | src/app/admin/inventory/add/page.tsx:131-140 | only the rows with the id change, each as one edit |
| InventoryAdd.WithoutRow | src/app/admin/inventory/add/page.tsx:142-144 | exactly the rows with another id remain |
| InventoryAdd.WithoutIndex | src/app/admin/inventory/add/page.tsx:100-102 | the image at the index is dropped and the rest kept in order; an index out of range changes nothing |
| InventoryAdd.WithoutRowKeepsOrder | src/app/admin/inventory/add/page.tsx:142-144 | filtering a concatenation filters each part, so the kept rows keep their order |
| InventoryAdd.SubmitIssue | src/app/admin/inventory/add/page.tsx:146-154 | the form is posted exactly when the name is not blank, a category is chosen, the price is positive, there are variants and images and no two SKUs are equal; the first failing check names the message |
| InventoryAdd.BulkTwiceIsRefused | src/app/admin/inventory/add/page.tsx:104-154 | one bulk add can be posted, two with the same name and colour repeat every SKU and are refused |
| InventoryAdd.AddProductForm.AddImageByUrl | src/app/admin/inventory/add/page.tsx:94-98 | a blank URL is ignored; otherwise the trimmed URL is appended and the box cleared |
| InventoryAdd.AddProductForm.AddUploadedImage | src/app/admin/inventory/add/page.tsx:86 | an upload's URL is appended when present |
| InventoryAdd.AddProductForm.RemoveImage | src/app/admin/inventory/add/page.tsx:100-102 | the images lose that index |
| InventoryAdd.AddProductForm.AddBulkVariants | src/app/admin/inventory/add/page.tsx:104-116 | refused without a name, otherwise the six bulk rows are appended |
| InventoryAdd.AddProductForm.AddSingleVariant | src/app/admin/inventory/add/page.tsx:118-129 | refused without a name, otherwise one UK8 White row with stock 0 is appended |
| InventoryAdd.AddProductForm.UpdateVariant | src/app/admin/inventory/add/page.tsx:131-140 | the rows become the edited rows |
| InventoryAdd.AddProductForm.RemoveVariant | src/app/admin/inventory/add/page.tsx:142-144 | the rows lose that id |
| InventoryApi.VariantIssues | src/app/api/admin/inventory/route.ts:33-40 | no issue exactly when the stock is at least 0 and a given low-stock level is at least 0 |
| InventoryApi.EachVariantIssues | src/app/api/admin/inventory/route.ts:33-40 | no issue exactly when every variant passes |
| InventoryApi.ProductIssues | src/app/api/admin/inventory/route.ts:19-41 | no issue exactly when name, slug, description and category are non-empty, the base price and any discounted price are positive, and there are at least one image and one variant, each valid |
| InventoryApi.CreateProductSpec | src/app/api/admin/inventory/route.ts:43-76 | a non-admin gets 401, an invalid body 400 with its first issue, a taken slug 400; every failure leaves the store as it was; a repeated or already-stored variant SKU 500; success exactly when the body is valid, the slug free, the category exists, every SKU is new and pairwise different, and the ids fresh |
| InventoryApi.CreateProduct | src/app/api/admin/inventory/route.ts:43-76 | the method changes the store and replies as the route specification says |
| InventoryApi.UnauthorizedIgnoresBody | src/app/api/admin/inventory/route.ts:44-45 | without an admin session the body makes no difference and the reply is 401 |
| InventoryApi.NewVariantAt | src/app/api/admin/inventory/route.ts:67 | each body element is the row under its own id |
| InventoryApi.NewVariantIdsAreFresh | src/app/api/admin/inventory/route.ts:67 | the new variant rows replace no existing row |
| InventoryApi.CreatedState | src/app/api/admin/inventory/route.ts:52-70 | a success adds the product row and the variant rows under fresh ids and changes nothing else |
| InventoryApi.CreatedProductRow | src/app/api/admin/inventory/route.ts:54-66 | the product row holds the body's fields, a missing discounted price as none, missing tags as [], a missing featured flag as false |
| InventoryApi.CreatedVariantRow | src/app/api/admin/inventory/route.ts:33-67 | each body element becomes one variant row, with a low-stock level of 3 when the body gives none |
| InventoryApi.CreateKeepsVariants | src/app/api/admin/inventory/route.ts:52-70 | every earlier variant row is kept as it was |
| InventoryApi.CreatedBounds | src/app/api/admin/inventory/route.ts:26-40 | a stored product has a positive base price and an image, its variant rows a non-negative stock and threshold |
| InventoryApi.NoSkuOrPriceRelationCheck | src/app/api/admin/inventory/route.ts:19-41 | a repeated SKU and a discounted price above the base price still pass the schema |
| InventoryApi.ClashingSkuCreatesNothing | src/app/api/admin/inventory/route.ts:52-75 | a valid body with a free slug still gets 500 and writes nothing when it repeats a SKU or names a stored one |
| InventoryApi.CreateKeepsSkusUnique | src/app/api/admin/inventory/route.ts:52-70 | when no two variant rows share a SKU, none do after a create |
| InventoryApi.MergeKeepsSkusUnique | src/app/api/admin/inventory/route.ts:67 | rows with new, pairwise different SKUs under fresh ids keep the table's SKUs unique |
| InventoryApi.GeneratedSkuClash | src/app/api/admin/inventory/route.ts:52-75 | a product whose two-word name has the initials of a stored one, posted with the add page's SKU for a stored colour and size, gets 500 |
| InventoryApi.TakenSlugCreatesNothing | src/app/api/admin/inventory/route.ts:49-50 | a slug already in use gives 400 and leaves the store as it was |
| InventoryPage.LevelOf | src/app/admin/inventory/page.tsx:110-113 | a row is out of stock exactly when its stock is 0, low exactly when 0 < stock ≤ its threshold, and in stock otherwise; the three never overlap |
| InventoryPage.AllVariants | src/app/admin/inventory/page.tsx:39 | every variant of every product is in the list, and nothing else |
| InventoryPage.CountsSplit | src/app/admin/inventory/page.tsx:40-42 | the low and out counts and the unit total add up over a concatenation |
| InventoryPage.LowAndOutDisjoint | src/app/admin/inventory/page.tsx:40-41 | the low and out counts together never exceed the number of variants |
| InventoryPage.SummaryOfAppend | src/app/admin/inventory/page.tsx:39-42 | adding a product adds exactly its own variants' counts to the summary |
| InventoryPage.AppendVariants | src/app/admin/inventory/page.tsx:39 | the variant list of an extended product list is the old list followed by the new product's variants |
| InventoryPage.Filtered | src/app/admin/inventory/page.tsx:38 | exactly the products whose lower-cased name contains the lower-cased search, and no more rows than the list |
| InventoryPage.FilteredAppend | src/app/admin/inventory/page.tsx:38 | filtering a concatenation filters each part, so the shown products keep the list's order |
| InventoryPage.FilteredSingle | src/app/admin/inventory/page.tsx:38 | a single product is shown exactly when its lower-cased name contains the lower-cased search |
| InventoryPage.EmptySearchShowsAll | src/app/admin/inventory/page.tsx:38 | an empty search shows every product |
| InventoryPage.SearchIgnoresCase | src/app/admin/inventory/page.tsx:38 | an upper-cased query shows the same products |
| InventoryPage.WithStock | src/app/admin/inventory/page.tsx:26-29 | the variants with that id get the new stock; every other variant and every product's id and name stay |
| InventoryPage.SaveIdempotent | src/app/admin/inventory/page.tsx:26-29 | saving the same value twice is saving it once |
| InventoryPage.SaveCurrentIsNoChange | src/app/admin/inventory/page.tsx:26-29 | saving the value a variant already has changes nothing |
| InventoryPage.SaveKeepsOtherLevels | src/app/admin/inventory/page.tsx:26-29 | every other variant keeps its stock level |
| InventoryPage.InventoryView.StartEdit | src/app/admin/inventory/page.tsx:140 | starting an edit seeds it with the current stock |
| InventoryPage.InventoryView.EditValue | src/app/admin/inventory/page.tsx:128 | typing stores the number, or 0 for an empty box |
| InventoryPage.InventoryView.CancelEdit | src/app/admin/inventory/page.tsx:134 | cancelling removes only that variant's pending edit |
| InventoryPage.InventoryView.SaveStock | src/app/admin/inventory/page.tsx:19-36 | a successful save sets the stock and removes only that pending edit; a failed one changes neither the list nor the edits |
| InventoryPage.InventoryView.SetSearch | src/app/admin/inventory/page.tsx:79-80 | the search text is what was typed |
| AdminCoupons.ParseDiscountType | src/app/api/admin/coupons/route.ts:29 | the discount-type column accepts exactly PERCENT and FLAT |
| AdminCoupons.CreateCouponSpec | src/app/api/admin/coupons/route.ts:15-43 | a non-admin gets 401, a falsy code, type or value 400, a taken upper-cased code 400; every failure leaves the table; an influencer id that names no influencer 500; success exactly when the upper-cased code is free, the type is known, the trimmed key is free and any given influencer id exists, and then the new row is stored under its trimmed, upper-cased code |
| AdminCoupons.CreateCoupon | src/app/api/admin/coupons/route.ts:15-43 | the method changes the store and replies as the route specification says |
| AdminCoupons.CreateKeepsTable | src/app/api/admin/coupons/route.ts:26-38 | creating keeps the table keyed by code with every key normalised |
| AdminCoupons.InsertKeepsTable | src/app/api/admin/coupons/route.ts:26-38 | inserting a normalised coupon under its code keeps both properties |
| AdminCoupons.CreatedDefaults | src/app/api/admin/coupons/route.ts:28-35 | a missing minimum is 0, a falsy cap or expiry is none, the coupon is unused and active, and value and type are those sent |
| AdminCoupons.PaddedCodeMissesDuplicateCheck | src/app/api/admin/coupons/route.ts:23-28 | a code with a leading space passes the duplicate lookup even when its trimmed form is taken, and is then refused by the insert with 500 instead of 400 |
| AdminCoupons.TrimmedCodeLookupIsExact | src/app/api/admin/coupons/route.ts:23-28 | for a code without surrounding spaces the insert is never refused as a duplicate |
| AdminCoupons.InsertRejectedWhen | src/app/api/admin/coupons/route.ts:23-41 | the insert is refused exactly when the upper-cased code is free but its trimmed key is taken |
| AdminCoupons.PercentValueUnchecked | src/app/api/admin/coupons/route.ts:26-38 | a PERCENT coupon of any non-zero value, above 100 included, is created with that value |
| AdminCoupons.CreatedCouponIsRedeemable | src/app/api/admin/coupons/route.ts:26-38 | a coupon just created is found by the probe under the raw code and accepted exactly when the subtotal meets its minimum, while unexpired and with a non-negative cap |
| AdminCoupons.CreatedRow | src/app/api/admin/coupons/route.ts:26-38 | the created row is stored under the lookup key of the raw code |
| AdminCoupons.FreshCouponChecks | src/app/api/coupons/validate/route.ts:16-29 | an active, unused, unexpired coupon with a non-negative cap is refused only below its minimum |
| AdminCoupons.ProbeOfStoredKey | src/app/api/coupons/validate/route.ts:12-29 | the probe under a code whose key is stored succeeds exactly when that row passes the checks |
| AbandonedCart.EligibleOf | src/app/api/cron/abandoned-cart/route.ts:14-26 | exactly the carts updated at least an hour ago, with an item, owned by an opted-in customer with a phone: each candidate is such a cart with its customer's phone, and every such cart is a candidate |
| AbandonedCart.EligibleOfAppend | src/app/api/cron/abandoned-cart/route.ts:14-26 | the filter keeps table order: the candidates of a concatenation are those of each part, one after the other |
| AbandonedCart.EligibleOfSingle | src/app/api/cron/abandoned-cart/route.ts:14-26 | a single cart is a candidate exactly when it is eligible, with its customer's phone |
| AbandonedCart.Selected | src/app/api/cron/abandoned-cart/route.ts:14-28 | the first min(50, eligible) eligible carts, in table order |
| AbandonedCart.ActionFor | src/app/api/cron/abandoned-cart/route.ts:34-48 | the first reminder exactly when the cart has a phone and items and none was sent; the discount exactly when the first is at least a day old and no discount was sent |
| AbandonedCart.UpdateCart | src/app/api/cron/abandoned-cart/route.ts:43-46 | each row with the cart's id gets its reminder stamp; every other row stays |
| AbandonedCart.BackCoupon | src/app/api/cron/abandoned-cart/route.ts:52-60 | the second-stage coupon is 5 percent, one use, unused, active, and expires a day after now |
| AbandonedCart.StepTables | src/app/api/cron/abandoned-cart/route.ts:36-73 | a cart with no action changes nothing; the coupon insert fails exactly on a taken code; otherwise the cart rows are updated, coupons only added, and no other table changes |
| AbandonedCart.Step | src/app/api/cron/abandoned-cart/route.ts:36-72 | one iteration raises the two counters by at most one together |
| AbandonedCart.RunSpec | src/app/api/cron/abandoned-cart/route.ts:6-9 | a missing or wrong secret gets 401 and changes nothing |
| AbandonedCart.Run | src/app/api/cron/abandoned-cart/route.ts:5-77 | the loop's writes and counters are those of the run specification, stopping with the writes so far when an insert throws |
| AbandonedCart.Advance | src/app/api/cron/abandoned-cart/route.ts:33-73 | one iteration's writes and counter bumps, and no write when it throws |
| AbandonedCart.Remind | src/app/api/cron/abandoned-cart/route.ts:36-73 | the writes for one cart are exactly its step, and nothing when the coupon insert fails |
| AbandonedCart.ProcessCountsBounded | src/app/api/cron/abandoned-cart/route.ts:33-74 | a finished run counts at most one reminder per remaining cart |
| AbandonedCart.RunCountsBounded | src/app/api/cron/abandoned-cart/route.ts:27-76 | the reported reminders never exceed the selected carts, and so never more than 50 |
| AbandonedCart.StagesHappenOnce | src/app/api/cron/abandoned-cart/route.ts:36-48 | after the first reminder a cart never gets it again; after the discount it never gets anything again |
| AbandonedCart.DiscountWaitsADay | src/app/api/cron/abandoned-cart/route.ts:48 | a run less than a day after the first reminder leaves the cart alone |
| AbandonedCart.ProcessFrame | src/app/api/cron/abandoned-cart/route.ts:33-74 | a run changes only the carts' reminder stamps and adds coupons, overwrites no coupon, and leaves every other table as it was |
| ForgotPassword.ResetKey | src/app/api/auth/forgot-password/route.ts:22 | the key is "reset_" followed by the token |
| ForgotPassword.ResetKeyInjective | src/app/api/auth/forgot-password/route.ts:22 | two tokens share a key exactly when they are equal |
| ForgotPassword.ForgotSpec | src/app/api/auth/forgot-password/route.ts:5-61 | a missing email gets 400; any given email gets the same success message; only a registered email stores an entry, under the token's key, holding the email and now plus one hour |
| ForgotPassword.Forgot | src/app/api/auth/forgot-password/route.ts:5-61 | the method changes the store and replies as the route specification says |
| ForgotPassword.ReplyHidesRegistration | src/app/api/auth/forgot-password/route.ts:11-56 | the reply is the same whatever the store holds |
| ForgotPassword.EarlierTokensStay | src/app/api/auth/forgot-password/route.ts:21-25 | issuing a token keeps every other entry, earlier tokens for the same email included |
| ResetPassword.ResetSpec | src/app/api/auth/reset-password/route.ts:5-38 | a missing token or password gets 400, a password under 8 characters 400, an unknown token 400, all without a change; an expired token is deleted and nothing else changes; an unknown account gets 404 and keeps the token; success sets the hashed password of the token's customer and deletes the token |
| ResetPassword.Reset | src/app/api/auth/reset-password/route.ts:5-38 | the method changes the store and replies as the route specification says |
| ResetPassword.TokenIsSingleUse | src/app/api/auth/reset-password/route.ts:30-31 | after a successful reset the same token is an invalid link |
| ResetPassword.ExpiredTokenIsRemoved | src/app/api/auth/reset-password/route.ts:16-19 | an expired token is removed and no password changes |
| ResetPassword.OnlyThatPasswordChanges | src/app/api/auth/reset-password/route.ts:24-28 | only the password of the token's customer changes |
| ResetPassword.IssuedTokenLifecycle | src/app/api/auth/forgot-password/route.ts:16-25 | a token issued for a registered email resets that customer's password up to an hour later, and is refused as expired, without a change, after that |
| Register.NewCustomer | src/app/api/auth/register/route.ts:38-47 | the row has the name, the email, the hashed password, no WhatsApp opt-in, zero counters, and no phone when it is absent or empty |
| Register.AdmitSpec | src/app/api/auth/register/route.ts:25-60 | a failure leaves the store; success exactly when the body is valid, the email is not registered and the new id and the email are unused; the reply is the new id, name and email |
| Register.RegisterSpec | src/app/api/auth/register/route.ts:9-61 | the limiter always counts the request; a failure leaves the store; a Retry-After value comes exactly with the 429 |
| Register.RegisterCustomer | src/app/api/auth/register/route.ts:9-61 | the method changes the store and the limiter and replies as the route specification says |
| Register.Admit | src/app/api/auth/register/route.ts:25-60 | the method changes the store and replies as the admission specification says |
| Register.LimitedBeforeBody | src/app/api/auth/register/route.ts:13-23 | over the limit the body makes no difference: 429, and a Retry-After of the wait rounded up to whole seconds |
| Register.EveryRequestCounts | src/app/api/auth/register/route.ts:13-35 | the limiter ends in the same state whether the body is accepted or not |
| Register.DuplicateEmailRefused | src/app/api/auth/register/route.ts:29-35 | an email already registered gets 409 and nothing is created |
| Register.RegistrationAddsOneCustomer | src/app/api/auth/register/route.ts:38-50 | a registration adds exactly one customer row and its index entry, keeps the store valid, and the email then finds the new row |
| Addresses.NewAddress | src/app/api/account/addresses/route.ts:13 | the row belongs to the customer, is the default exactly when asked, and has no line 2 when it is absent or empty |
| Addresses.ClearDefaults | src/app/api/account/addresses/route.ts:11 | the customer's addresses lose their default mark; other customers' rows stay |
| Addresses.AddSpec | src/app/api/account/addresses/route.ts:6-16 | a non-customer gets 401 and nothing changes; success exactly when the required fields are present, the session's customer row exists and the id is new (a missing customer row fails the foreign key with 500), storing the new row after the default marks were cleared when asked; a failed insert after a default request keeps those marks cleared |
| Addresses.Add | src/app/api/account/addresses/route.ts:6-16 | the method changes the addresses and replies as the route specification says |
| Addresses.DeleteSpec | src/app/api/account/addresses/route.ts:18-27 | a non-customer gets 401, a missing id 400; otherwise success, removing the address only when it exists and is the customer's own |
| Addresses.Delete | src/app/api/account/addresses/route.ts:18-27 | the method changes the addresses and replies as the route specification says |
| Addresses.AddKeepsOneDefault | src/app/api/account/addresses/route.ts:11-13 | a customer with at most one default keeps at most one after an add, and a default add makes the new row the only one |
| Addresses.AddLeavesOthersAlone | src/app/api/account/addresses/route.ts:11-13 | another customer's addresses are left as they were |
| Addresses.FailedDefaultAddClearsDefaults | src/app/api/account/addresses/route.ts:11-12 | a default add whose insert fails still leaves the customer with no default |
| Addresses.DeleteOwnerScoped | src/app/api/account/addresses/route.ts:25-26 | a delete never touches another customer's row, is idempotent, and keeps at most one default |
| Account.FirstImage | src/app/api/account/route.ts:43 | the image is empty exactly when there are no images or the first is empty, and is otherwise the first |
| Account.OwnAddresses | src/app/api/account/route.ts:11-14 | exactly the scanned addresses that belong to the customer, each with its stored row |
| Account.WithDefault | src/app/api/account/route.ts:14 | exactly the rows whose default mark is the given one |
| Account.DefaultFirst | src/app/api/account/route.ts:14 | the same rows, the default ones before all others |
| Account.OwnOrders | src/app/api/account/route.ts:11-16 | exactly the scanned orders that belong to the customer, each with its stored row |
| Account.Insert | src/app/api/account/route.ts:16 | inserting into a newest-first list keeps it newest first and adds exactly that row |
| Account.NewestFirst | src/app/api/account/route.ts:16 | the orders newest first, a permutation of the input |
| Account.ItemViewOf | src/app/api/account/route.ts:42-46 | a line is shown exactly when its product and variant exist, with the product's first image or '' |
| Account.ItemViews | src/app/api/account/route.ts:42-46 | the lines are shown, in order, exactly when each one can be |
| Account.OrderViews | src/app/api/account/route.ts:37-47 | views exist exactly when every order's lines can be shown; each view carries its order's id, number, statuses, payment method, total, time, tracking fields and line views, in order |
| Account.AccountGet | src/app/api/account/route.ts:6-50 | a non-customer gets 401 and a missing customer 404; otherwise a 500 exactly when some own order has a line whose product or variant is gone, and else the reply carries the customer's id, name, email, phone, opt-in and both counters, their addresses default first, and the view of each own order, newest first |
| Account.OrdersNewestFirst | src/app/api/account/route.ts:15-47 | the listed orders are newest first and are the customer's own orders, each once |
| Account.AddressesDefaultFirst | src/app/api/account/route.ts:14-36 | the listed addresses are the customer's own, defaults first, and every own address is listed |
| Account.Patched | src/app/api/account/route.ts:59 | a non-empty name, a given phone (null included) and a given opt-in replace the stored ones; nothing else changes |
| Account.PatchSpec | src/app/api/account/route.ts:52-63 | a non-customer gets 401 and nothing changes; a customer succeeds exactly when their row exists, and otherwise gets 500; success replaces only the customer's row by the patched one and replies with its id, name, e-mail, phone and opt-in |
| Account.Patch | src/app/api/account/route.ts:52-63 | the method changes the store and replies as the route specification says |
| Account.PatchKeepsTheRest | src/app/api/account/route.ts:57-61 | a PATCH keeps email, counters and password, touches no other customer and keeps the store valid |
| Account.PatchIdempotent | src/app/api/account/route.ts:59 | applying the same PATCH twice leaves what applying it once leaves |
| Wishlist.ListSpec | src/app/api/account/wishlist/route.ts:6-20 | a non-customer gets 401; a failing query gives the empty list; otherwise exactly the customer's saved products |
| Wishlist.ToggleSpec | src/app/api/account/wishlist/route.ts:22-41 | a non-customer gets 401, a missing product id 400; a saved pair is removed, an unsaved one for an existing product and an existing customer row is added, and in every other case the reply is 'unavailable' and the table stays |
| Wishlist.Toggle | src/app/api/account/wishlist/route.ts:22-41 | the method changes the wishlist and replies as the route specification says |
| Wishlist.ToggleTwiceRestores | src/app/api/account/wishlist/route.ts:29-37 | toggling the same existing product twice restores the wishlist |
| Wishlist.ToggleTouchesOnePair | src/app/api/account/wishlist/route.ts:29-37 | a toggle changes only the one pair, added after 'added' and gone after 'removed' |
| Reviews.NewReview | src/app/api/reviews/route.ts:41-50 | the row is the customer's, for the product, with the rating, the trimmed body, the trimmed title or none when it is empty, and not published |
| Reviews.SubmitSpec | src/app/api/reviews/route.ts:9-67 | a non-customer gets 401 and nothing changes; the review limiter always counts a customer's request; success exactly when the limiter allows, the body is valid, the customer has no review of the product, the product and the customer row exist and the id is new, and then only the new row is added |
| Reviews.Submit | src/app/api/reviews/route.ts:9-67 | the method changes the store and the limiter and replies as the route specification says |
| Reviews.InsertKeepsOnePerProduct | src/app/api/reviews/route.ts:31-50 | inserting a review for a pair without one keeps one review per customer and product |
| Reviews.SubmitKeepsOnePerProduct | src/app/api/reviews/route.ts:31-39 | submitting keeps one review per customer and product, and a second submission for the product gets 409 |
| Reviews.LimitBeforeValidation | src/app/api/reviews/route.ts:18-29 | the limiter counts the request before the body is read, and a request over the limit gets 429 whatever its body |
| Reviews.NewReviewsUnpublished | src/app/api/reviews/route.ts:48 | a submission never adds a published review |
| Track.AddressLine | src/app/api/track/route.ts:48-50 | the line starts with the first address line and a comma and ends with " - " and the pincode |
| Track.InsertEntry | src/app/api/track/route.ts:24 | inserting into an oldest-first history keeps it oldest first and adds exactly that entry |
| Track.OldestFirst | src/app/api/track/route.ts:24 | the history oldest first, a permutation of the stored entries |
| Track.TrackItemOf | src/app/api/track/route.ts:51-58 | a line is shown exactly when its product and variant exist; its image is null exactly when the first image is missing or empty |
| Track.TrackItems | src/app/api/track/route.ts:51-58 | the lines are shown, in order, exactly when each one can be |
| Track.FindOrder | src/app/api/track/route.ts:14-15 | the order found has the number asked for, and in a valid store one is found exactly when an order has that number |
| Track.TrackSpec | src/app/api/track/route.ts:4-70 | a missing or empty order number gets 400 and an unknown one 404; success exactly when the order exists, the phone gate passes and its lines can be shown, with the order's status, payment status and method, total, tracking number, courier, creation time, its line views, history oldest first and address line |
| Track.WrongPhoneLooksUnknown | src/app/api/track/route.ts:28-35 | a wrong phone gets exactly the reply of an unknown order number |
| Track.GateNeedsBothPhones | src/app/api/track/route.ts:33 | without a stored phone the reply is the same whatever phone is given |
| Track.GateComparesSuffix | src/app/api/track/route.ts:33 | any phone whose last four characters end the stored phone passes |
| Track.OwnPhonePasses | src/app/api/track/route.ts:33 | a phone that ends with the stored phone's last four characters passes |
| Track.HistoryOldestFirst | src/app/api/track/route.ts:24-63 | the returned history is oldest first and holds exactly the order's entries |
| Broadcast.Audience | src/app/api/admin/marketing/broadcast/route.ts:18-25 | exactly the scanned customers in the segment, and for WhatsApp only those opted in with a phone |
| Broadcast.Phones | src/app/api/admin/marketing/broadcast/route.ts:30 | exactly the non-empty phones of the audience, no more entries than customers |
| Broadcast.Emails | src/app/api/admin/marketing/broadcast/route.ts:43 | one e-mail per audience member, in order |
| Broadcast.Fulfilled | src/lib/whatsapp.ts:78-83 | the fulfilled count is at most the number of sends: all of them when every send is fulfilled, none when none is |
| Broadcast.BroadcastSpec | src/app/api/admin/marketing/broadcast/route.ts:7-62 | a non-admin gets 401, a missing type or a missing message, subject or body 400, all without a change; only the broadcast log changes, by at most one appended row, and a row is appended exactly when a WhatsApp or e-mail run succeeds |
| Broadcast.Send | src/app/api/admin/marketing/broadcast/route.ts:7-62 | the method changes the store and replies as the route specification says |
| Broadcast.WhatsAppOnlyToOptedIn | src/app/api/admin/marketing/broadcast/route.ts:18-31 | every WhatsApp recipient is an opted-in customer with that phone in the chosen segment |
| Broadcast.SegmentsPartition | src/app/api/admin/marketing/broadcast/route.ts:20-23 | REPEAT customers are buyers, BUYERS and NON_BUYERS split the customers, and any other segment selects everyone |
| Broadcast.LoggedCounts | src/app/api/admin/marketing/broadcast/route.ts:29-55 | the logged row has the reply's count and the segment or 'ALL'; a WhatsApp row's sent and failed counts add up to the phones, an e-mail row counts the whole audience |
| Analytics.Safe | src/app/api/admin/analytics/route.ts:18-24 | the query's answer when it has one, the fallback when it throws |
| Analytics.StepPct | src/app/api/admin/analytics/route.ts:156-158 | with a positive previous count, the percentage is the exact ratio times 100 rounded half up (the source's double rounding is under Left out); otherwise 0 |
| Analytics.Step | src/app/api/admin/analytics/route.ts:156-158 | a step has its count, its percentage of the previous step and a drop-off of the loss, never negative |
| Analytics.Funnel | src/app/api/admin/analytics/route.ts:148-159 | four steps with the four counts, the first at 100% and no drop-off, each later one measured against the one before |
| Analytics.StepBounds | src/app/api/admin/analytics/route.ts:156-158 | a step that keeps part of the previous one has a percentage from 0 to 100 and loses the rest as drop-off; keeping all of it gives 100; growing gives no drop-off |
| Analytics.SegmentOf | src/app/api/admin/analytics/route.ts:227 | VIP from 5 orders, Loyal from 2 to 4, New below 2 |
| Analytics.SegmentMonotone | src/app/api/admin/analytics/route.ts:227 | more orders never move a customer to a lower segment |
| Analytics.AvgOrderValue | src/app/api/admin/analytics/route.ts:185-226 | with orders, the spend per order rounded half up; without, 0 |
| Analytics.AvgOfEqualOrders | src/app/api/admin/analytics/route.ts:185 | when every order has the same total, the average is that total |
| Analytics.TopCustomers | src/app/api/admin/analytics/route.ts:224-228 | one entry per row, in order, with its segment and average order value |
| Analytics.CategoryOf | src/app/api/admin/analytics/route.ts:106 | a product's category name, 'Other' when it has none or is not found; never empty |
| Analytics.TallyKeys | src/app/api/admin/analytics/route.ts:104-108 | each category is listed once, and exactly the categories in the map |
| Analytics.TallyEntry | src/app/api/admin/analytics/route.ts:104-108 | a category is in the map exactly when some product row falls in it, with the sum of those rows |
| Analytics.Entries | src/app/api/admin/analytics/route.ts:109-110 | the entries are the map's pairs in the order of the keys |
| Analytics.InsertByRevenue | src/app/api/admin/analytics/route.ts:111 | inserting into a list sorted by revenue, highest first, keeps it sorted and adds exactly that entry |
| Analytics.ByRevenueDesc | src/app/api/admin/analytics/route.ts:111 | the entries highest revenue first, a permutation of the input |
| Analytics.CategoryRevenue | src/app/api/admin/analytics/route.ts:98-111 | the loop computes the sorted entries of the category tally |
| Analytics.CategoryRevenueCorrect | src/app/api/admin/analytics/route.ts:98-111 | the category chart is highest revenue first, lists no category twice, gives each category the sum of its rows, and lists exactly the categories some row falls in |
| Analytics.DayTallyKeys | src/app/api/admin/analytics/route.ts:128-134 | each day is listed once, and exactly the days in the map |
| Analytics.DayTallyEntry | src/app/api/admin/analytics/route.ts:128-134 | a day is in the map exactly when some paid order falls on it, with that day's revenue and order count |
| Analytics.InsertDay | src/app/api/admin/analytics/route.ts:136 | inserting into an ascending list of days keeps it ascending and adds exactly that day |
| Analytics.SortDays | src/app/api/admin/analytics/route.ts:136 | the days in ascending order, a permutation of the input |
| Analytics.Points | src/app/api/admin/analytics/route.ts:135-140 | one point per day, in order, with that day's totals |
| Analytics.RevenueByDay | src/app/api/admin/analytics/route.ts:121-141 | the loop computes the per-day chart from the raw orders |
| Analytics.ChartPoints | src/app/api/admin/analytics/route.ts:128-140 | the chart has one point per day key, each day once, with that day's totals |
| Analytics.ByDayChartAscending | src/app/api/admin/analytics/route.ts:135-136 | the per-day chart lists days in strictly ascending order |
| Analytics.ByDayChartTotals | src/app/api/admin/analytics/route.ts:128-134 | each point holds the revenue and the count of that day's paid orders |
| Analytics.ByDayChartDays | src/app/api/admin/analytics/route.ts:128-135 | a day has a point exactly when some paid order falls on it |
| Analytics.ChannelStats | src/app/api/admin/analytics/route.ts:197-203 | no more entries than rows, a stat exactly for the rows with a source, never an empty channel |
| Analytics.ChannelStatsAppend | src/app/api/admin/analytics/route.ts:197-203 | the filter-map keeps row order: the stats of a concatenation are the stats of each part, one after the other |
| Analytics.ChannelStatsSingle | src/app/api/admin/analytics/route.ts:197-203 | one row gives exactly one stat, its own, when it has a source, and none otherwise |
| Analytics.DailyPoints | src/app/api/admin/analytics/route.ts:115-120 | one point per daily statistic, in order, with its revenue and orders |
| Analytics.DashboardSpec | src/app/api/admin/analytics/route.ts:26-228 | only an admin gets the dashboard; anyone else gets 401 |
| Analytics.GetDashboard | src/app/api/admin/analytics/route.ts:26-238 | the method computes the dashboard the route specification describes |
| Analytics.EveryQueryFailing | src/app/api/admin/analytics/route.ts:39-159 | with every query throwing, an admin still gets the dashboard, with zero counts and empty lists |

## Hazards in the code

The program behaves as follows in each of these cases, and the model does the same.
- The order route prices shipping on the subtotal before the discount. The checkout page prices it on the subtotal after the discount. `Checkout.QuoteAgainstServer` and `Checkout.Welcome10OnThousand` show where the two differ.
- The COD minimum of 299 is enforced only on the checkout page. The order route takes a COD order of any amount (`Checkout.CodMinimumOnlyOnPage`).
- Stock is decremented without a lower bound. Stock is an `int` here and may go negative. Two lines for one variant are each checked alone against its stock (`Orders.DuplicateLinesPass`).
- The order route has no transaction around its customer, address and order writes. A failure after a write keeps that write. Only the COD settlement and the payment settlement are atomic.
- The coupon usage bump comes after the settlement transaction, and its failure is swallowed.
- The payment callback never compares the gateway order id with the one stored on the order. Its guard looks only at the payment status, so a COD order can be settled, and its stock taken, a second time (`Payments.CodOrderSettledTwice`).
- The admin coupon route checks for duplicates with the upper-cased code but stores the code upper-cased and trimmed. A padded code passes the lookup and is caught only by the table's unique index.
- The add page builds a SKU from the name's initials, the colour's first letters and the size. So two products whose names share their initials, such as "Speed Racer" and the seeded "Street Runner", get the same SKU for a colour and size (`InventoryAdd.SpeedRacerMeetsStreetRunner`). Neither the page nor the route checks this. The variant table's unique index refuses the second product's nested create, and the admin gets 500 (`InventoryApi.GeneratedSkuClash`).

## Left out

- UI rendering in every page: JSX, toasts, routing, effects, the hosted payment widget and the locale-formatted labels (`formatPrice`, `formatNumber`, `toLocaleDateString`). Only the state updates and expressions of the modelled pages are kept.
- The Shiprocket id write-back is not modelled. After a shipment is created, the order route (src/app/api/orders/route.ts:282-285) and the payment callback (src/app/api/payments/verify/route.ts:138-141) store its id on the order row with a swallowed `order.update`. `Store.Order` has no shipment-id column, and nothing modelled reads that column.
- Notifications, WhatsApp and Resend sends, the Shiprocket shipment and the Razorpay order creation are calls into services. A send whose failure is caught is a no-op. The gateway order id is an input, None when creating it throws. Where a broadcast counts sends, whether each send succeeded is an input.
- Cryptography: the HMAC-SHA256 digest of the payment signature (RFC 2104 over FIPS 180-4) is the function parameter `sign`, and bcrypt is the function parameter `hash`.
- Concurrency: requests run one at a time, and each Prisma `$transaction` is one atomic step. Races between concurrent checkouts or callbacks, and the limiter's interval timer that runs `Prune`, are not modelled.
- Utils.DiscountPercent: rounds the exact ratio 100 × (original − discounted) / original half up. The source (src/lib/utils.ts:43) rounds the double `((original - discounted) / original) * 100`, which is rounded twice and can land just below a half. So `discountPercent(200, 85)` is 57 in the source and 58 here.
- Analytics.StepPct: rounds the exact ratio 100 × cur / prev half up. The source (src/app/api/admin/analytics/route.ts:156-158) rounds the double `(cur / prev) * 100`. So 23 carts from 40 visits give 57 in the source and 58 here, and 29 from 200 give 14 against 15.
- Analytics.Step: its percentage is `Analytics.StepPct`, with the same difference at exact halves such as 23 of 40.
- Analytics.Funnel: its later steps carry `Analytics.StepPct`, with the same difference at exact halves such as 23 of 40.
- Floating point: prices and money are whole rupees. The analytics rates and conversions computed with `toFixed`, and the display-only discount percentage of the add page, are not modelled.
- Strings are sequences of Dafny `char`s, which are Unicode scalar values, so lengths count code points. JavaScript counts UTF-16 code units, so a character outside the Basic Multilingual Plane (an emoji, say) counts once here and twice in the source. The checks that differ for such text:
  - every zod length rule: the `Schemas.*Issues` members, `Orders.Route*Issues`, `InventoryApi.ProductIssues`, and the 8-character password check in `ResetPassword.ResetSpec`;
  - the index and slice operations: `w[0]` in `InventoryAdd.FirstChars` (half a surrogate pair in JavaScript), `slice(0, 3)` in `InventoryAdd.Take3`, and the last four characters in the `Track` phone gate.
- Case mapping covers ASCII, plus the two non-ASCII letters whose lower case is ASCII where slugify needs them.
- Request bodies are taken to be well-typed JSON. zod's type errors, a body that is not JSON, and the 500 that follows a malformed body are not modelled.
- Orders.RouteItemIssues: quantities are whole numbers here, because `ItemBody.quantity` is an `int`. The route's schema (src/app/api/orders/route.ts:24) has no `.int()`. So in the source a quantity of 1.5 passes the schema and the stock check and is priced at 1.5 × price. The order insert then fails on the integer column, and the route answers 500 after the customer and address writes. That path is not modelled.
- Prisma error messages are fixed constants in the replies.
- The abandoned-cart cron route (src/app/api/cron/abandoned-cart/route.ts:5-77) has no try/catch, so a throw reaches Next.js, which sends a generic 500. The model's body for it, `AbandonedCart.Unhandled`, is a placeholder for that reply.
- CartStore.ItemCount and CartStore.Subtotal: the model folds the current lines every time it reads them, which is what the getters are evidently meant to do. In the source (src/hooks/useCart.ts:49-52) they are `get` accessors on the initial state object. zustand's `set` merges state with `Object.assign`, which reads each getter once and copies the value as a plain field, so after the first `set` or persist merge `itemCount` and `subtotal` stay at the value from before that update. Every consumer of the page's `subtotal` (src/app/checkout/page.tsx:17-34 and :71) then sees the stale value, and the model does not follow it there: `Checkout.ClientShipping`, `Checkout.ClientTotal`, `Checkout.CodOffered`, `Checkout.ProbeRequest` (the probe's subtotal), `Checkout.QuoteAgainstServer` and `Checkout.AppliedCouponHoldsAtOrder` take the subtotal as a parameter, which stands for `CartStore.Subtotal` of the current lines and not for the stale field.
- The database's own column defaults are written out where the routes rely on them. prisma/schema.prisma is not part of this model.
- The order route's 'Customer error' reply (src/app/api/orders/route.ts:141-143) cannot be reached, because the customer step always yields a row or throws. A throw is modelled as the route's generic 500, `Orders.OrderFailed`.
- The schemas no modelled route parses with (`LoginSchema`, `ForgotPasswordSchema`, `ResetPasswordSchema`) are left out. So are the routes and pages that only list rows for the admin console.
- `getShippingSettings` and `lookupPincode` are left out. Shipping uses the default threshold 999 and charge 49, and the COD minimum is 299.
- Account.ItemViewOf: the view leaves out the order line's own row id (`id: i.id` at src/app/api/account/route.ts:42), because order lines are stored inside their order without ids.
- The category table is modelled by its row ids alone (`Store.Tables.categories`), which is what the product create's foreign key reads. Category names reach the model only through the analytics lookup rows.
- The influencer table is modelled by its row ids alone (`Store.Tables.influencers`), which is what the coupon create's foreign key reads. The influencer's name and handle that the coupon route joins into its reply (src/app/api/admin/coupons/route.ts:37) are not modelled.
- The account GET reads rows in the order the store returns them, which is an input.
- Wishlist.ListSpec: returns the customer's wished product ids as a set. So the wishlist GET's newest-first order (`orderBy: { createdAt: 'desc' }`, src/app/api/account/wishlist/route.ts:14) is lost, because the wishlist table keeps no creation time. The product details the GET joins in are not modelled either.
- The model lists an object's keys in insertion order. `Object.entries` does that only for keys that are not integer-like. Integer-like keys, such as a category named "2024", come first in ascending numeric order. With such names the category list handed to the revenue sort, and so the order of ties within it, differs from `Analytics.Entries`.
- The analytics route's per-day keys are the day numbers given by the parameter `dayOf`, not ISO strings.
- The analytics route's other queries and the values derived from them are not modelled: today, month, top products, low stock, recent orders and customer insights, with their revenue sums, the 'Unknown' and 'Guest' fallbacks, the item counts and the repeat rate (src/app/api/admin/analytics/route.ts:163-222).
- The broadcast log rows do not record the message, subject or body text, and read only the counts and the segment.
- The e-mail campaign counts every recipient as sent, as the code does, whatever became of each send.
