# nextcardbd order and payment core, in Dafny

A model of the order and payment logic of the nextcardbd e-commerce backend, with proofs about it. The repository holds two separate revisions of that logic. They become two families of modules that share only `Common` and `Sorting`.

- **The customer-facing shop** (`Ncbd*` modules). Orders are placed with prices resolved on the server (`orderController.js`). The order document's pre-save hooks open the shipping history, verify cash-on-delivery orders at once, and compute cost and profit (`Order.js`). The product document derives its profit fields (`Product.js`). The module also covers:
  - the admin dashboard totals (`analyticsController.js`);
  - the category, subcategory and product handlers, with their slug rules, soft deletes, listing and pagination;
  - the account handlers, with e-mail verification and reset tokens (`authController.js`).
- **The admin gates** (`AdminGates`): the shop's role-and-header chain (`adminMiddleware.js`) and the order service's API key check (`adminAuth.js`).
- **The order service** (`Ord*` modules). An order is created with a stock check and at most five tries at a fresh `ORD-xxxxx` number. It then moves `Pending` → `Paid` (the customer submits a transaction id, which must be unused) → `Verified` (an administrator checks it). The selling price is a markup on the supplier's price with rounding (`product.service.js`). A supplier sync prices each fetched product, collects its images and upserts it by the supplier's id.

Each MongoDB collection is a class holding a `seq` of documents in insertion order, and a document is addressed by its position. The class's `Valid()` holds the unique indexes and the schema validation of every stored document. Each handler that changes documents is a method over such a store. It is proved equal to a function of the collection it starts from, and the lemmas reason about that function. Mongoose behaviour that decides outcomes is written out:
- validation runs before the pre-save hooks, and an enum is a save-time check that rejects the write;
- the `/^find/` soft-delete hooks apply to `find`/`findOne`/`findById` but not to `countDocuments`;
- unique indexes also see soft-deleted documents;
- `trim`/`lowercase` setters apply to stored values;
- `findByIdAndUpdate` runs update validators but no save hook, and the validators check only the fields the update sets;
- keys that are `undefined` are dropped from an update document (as Mongoose 6 and later do), so a field the request leaves out keeps its stored value.

Money in the shop is whole BDT (`int`). Prices in the order service and all percentages are exact `real`s.

## Model

| member | source | states |
|---|---|---|
| Common.StoreFailureStatus | src/middleware/errorHandler.js:24-42 | a validation error is answered with 400 and a duplicate key with 409, and only those |
| Common.Trim | src/models/User.js:12 | the trimmed string is no longer than the input and starts and ends with no white space |
| Common.TrimIsInfix | src/models/User.js:12 | trimming removes white space at the two ends and nothing else: the result is the infix of the input between the two runs of white space |
| Common.TrimOfTrimmed | src/models/User.js:12 | a string with no white space at either end is its own trim |
| Common.TrimIdempotent | src/models/User.js:12 | trimming twice is trimming once, so a trimmed value stored by the setter reads back unchanged |
| Common.AsciiLower | src/models/User.js:13 | lowering keeps the length and lowers each character on its own |
| Common.AsciiLowerIdempotent | src/models/User.js:13 | lowering twice is lowering once |
| Common.NormalizeKeyIdempotent | src/models/User.js:11-13 | a key stored under `trim` and `lowercase` normalises to itself, so looking it up again finds it |
| Common.FindFirst | src/models/User.js:11 | the lookup returns the first position that matches, and none exactly when no position matches |
| Common.Filter | src/controllers/admin.controller.js:13 | the filter keeps exactly the matching entries and no others, counted, with no entry more often than in the input |
| Common.Numbered | src/controllers/categoryController.js:106 | each stored document is paired with its own `_id`, its position, in store order |
| Sorting.SortBy | src/controllers/categoryController.js:106 | sorting returns a permutation of the input that is ordered by the given total preorder |
| Sorting.SortByKey | src/controllers/orderController.js:154 | sorting by a numeric key returns a permutation of the input with the keys rising |
| Sorting.SortByString | src/controllers/categoryController.js:106 | sorting by a string key returns a permutation of the input with the keys in code-point order |
| Sorting.LexLeTotal | src/controllers/categoryController.js:106 | any two strings are comparable in code-point order |
| Sorting.LexLeTransitive | src/controllers/categoryController.js:106 | code-point order is transitive |
| Sorting.FilterKeepsOrder | src/controllers/categoryController.js:132-136 | filtering an ordered listing keeps it ordered |
| NcbdCatalog.SlugKeys | src/models/Category.js:17-24 | the slug index sees each stored document's slug and deletion flag, one entry per document in store order |
| NcbdCatalog.ReplaceKeepsSlugsUnique | src/models/Category.js:17-24 | replacing a document by one whose slug is free at its position keeps the slug index unique |
| NcbdCatalog.AppendKeepsSlugsUnique | src/models/Category.js:17-24 | inserting a document whose slug no stored document holds keeps the slug index unique |
| NcbdCatalog.FlagKeepsSlugsUnique | src/models/Category.js:25-29 | soft deletion keeps every slug in place, so the index stays unique |
| NcbdProduct.EffectivePriceBounds | src/models/Product.js:52-58 | with a valid sale price the effective price never exceeds the regular price, is positive when that is, and equals it exactly when there is no positive sale price |
| NcbdProduct.ProfitPercent | src/models/Product.js:136-140 | profit / buy price × 100 when the buy price is positive; otherwise 100 exactly when the selling price is positive, else 0 |
| NcbdProduct.ProfitHook | src/models/Product.js:126-143 | when a price was modified the profit fields are those of the effective price; otherwise the product is unchanged; no other field changes |
| NcbdProduct.ProfitHookIdempotent | src/models/Product.js:126-143 | running the hook twice gives what running it once gives |
| NcbdProduct.ProfitAddsUp | src/models/Product.js:129-137 | profit amount + buy price = effective price, and the percentage is the profit over the buy price |
| NcbdProduct.InsertDoc | src/models/Product.js:5-143 | `save()` of a new product succeeds iff the set-up document passes the schema and both unique indexes; it appends one product, validated, with consistent profit fields and the creation time, and keeps the indexes unique; the new product holds the draft's trimmed `productId` and titles, its lower-cased slug, and its prices, category ids, images and status |
| NcbdProduct.ReplaceKeepsUnique | src/models/Product.js:10-27 | replacing a product by one the indexes admit at its position keeps `productId` and `slug` unique |
| NcbdProduct.InsertKeepsStoredValid | src/models/Product.js:5-143 | an insert keeps the collection's invariant (indexes, single-field validators, deleted means archived) |
| NcbdProduct.ReplaceKeepsStoredValid | src/models/Product.js:5-118 | a replacement that passes the single-field validators and the indexes keeps the collection's invariant |
| NcbdOrderModel.PackagingIsNoOrderStatus | src/models/Order.js:44-54 | `Packaging` is a shipping-update value but not an order status; the two enums share exactly Awaiting Verification, Shipped, Delivered, Cancelled and On Hold |
| NcbdOrderModel.MarginIsDifference | src/models/Order.js:170-177 | what the lines earn beyond their buy price is the product total minus the buy total |
| NcbdOrderModel.MarginNonNegative | src/models/Order.js:74-78 | with quantities at least 1 and no buy price above its price, no order's lines lose money |
| NcbdOrderModel.OpeningUpdates | src/models/Order.js:150-162 | a new order's history opens with `Order Received`; cash on delivery adds `Packaging` with the note `Cash on Delivery`, a pending payment adds `Awaiting Verification`, anything else adds nothing; every entry is in the update enum |
| NcbdOrderModel.Opened | src/models/Order.js:149-165 | the first hook appends the opening history; cash on delivery becomes payment `Verified` and order `Processing`; any other method changes no status; no other field changes and a valid order stays valid |
| NcbdOrderModel.WithTotals | src/models/Order.js:169-180 | the buy total is Σ (buy price or 0) × quantity, and profit + buy total + shipping = total amount; no other field changes |
| NcbdOrderModel.TotalsProfitIsMargin | src/models/Order.js:176-177 | when the lines and the shipping make up the total, the recorded profit is exactly what the lines earn beyond their buy price |
| NcbdOrderModel.OrderDocument.OpeningHook | src/models/Order.js:149-165 | the hook, in place, turns a new document into `Opened` of it and leaves a loaded one unchanged |
| NcbdOrderModel.OrderDocument.TotalsHook | src/models/Order.js:169-180 | the `forEach` accumulation leaves `WithTotals` of the document when it is new or its items changed, and the document unchanged otherwise |
| NcbdOrderModel.TransitionKeepsInvariant | src/models/Order.js:130-135 | a save that changes statuses, only appends history and keeps the amounts keeps the stored-order invariant |
| NcbdOrderModel.AppendOrderKeepsValid | src/models/Order.js:90-95 | inserting an order whose `orderId` no stored order holds keeps the collection's invariant and the unique index |
| NcbdOrderModel.ReplaceOrderKeepsValid | src/models/Order.js:90-95 | replacing a stored order by one whose `orderId` is free at its position keeps the collection's invariant |
| NcbdOrderModel.OwnOrderIdFree | src/models/Order.js:90-95 | under the unique index a stored order's own number is free at its own position |
| NcbdOrderModel.NewOrderInvariant | src/models/Order.js:149-180 | a new, priced, schema-valid order with no history is stored with its history opening `Order Received`, the hook's totals and the declared payment equal to its total |
| NcbdOrderModel.OrderStore.Save | src/models/Order.js:88-180 | `save()`: the schema is checked before the hooks (400 and nothing stored), then the unique index (409 and nothing stored); otherwise both hooks run, the timestamps are set and the document is appended (new) or replaced (loaded) |
| NcbdOrderModel.OrderStore.SaveNew | src/models/Order.js:88-180 | saving a new priced order succeeds iff it passes the schema and its number is free, appends the hooked and stamped order, and keeps the collection's invariant |
| NcbdOrderModel.NewOrderHistoryOpens | src/models/Order.js:150-177 | a new order is saved with the opening history, the buy total, profit = total − buy − shipping, and both timestamps at the save time |
| NcbdOrderModel.LoadedSaveKeepsTotals | src/models/Order.js:170 | saving a loaded order whose items are untouched changes nothing but `updatedAt` |
| NcbdOrderId.DecimalString | src/controllers/orderController.js:37 | `toString()` of a count is a non-empty string of decimal digits |
| NcbdOrderId.PadStart | src/controllers/orderController.js:37 | `padStart` gives at least the width, ends with the original string and fills the front with the pad character |
| NcbdOrderId.FormatOrderId | src/controllers/orderController.js:37-38 | the number is `NCBD-`, the date part, `-` and a digit-only sequence of at least four characters |
| NcbdOrderId.ParseDecimalString | src/controllers/orderController.js:37 | reading a decimal string back gives the number |
| NcbdOrderId.ParseLeadingZeros | src/controllers/orderController.js:37 | zero padding does not change the sequence value |
| NcbdOrderId.ParsePadded | src/controllers/orderController.js:37 | the padded sequence reads back to the sequence number |
| NcbdOrderId.GenerateOrderId | src/controllers/orderController.js:29-38 | with an 8-character date part, the number reads back as that date part and one more than the orders created in the window |
| NcbdOrderId.FormatOrderIdRoundTrip | src/controllers/orderController.js:31-38 | with an 8-character `yyyymmdd` date part, the number reads back to that date part and sequence |
| NcbdOrderId.FormatOrderIdInjective | src/controllers/orderController.js:31-38 | two numbers are equal only for the same date and the same sequence |
| NcbdOrderId.SequencePadded | src/controllers/orderController.js:37 | sequences below 10000 all give numbers of the same length (`NCBD-yyyymmdd-0001` … `-9999`) |
| NcbdOrderId.DecimalLength | src/controllers/orderController.js:37 | the number of decimal digits of a count, by magnitude |
| NcbdOrderId.TodayCount | src/controllers/orderController.js:32-36 | the day's count is the number of orders (deleted ones included) created in the window, never more than the stored orders |
| NcbdOrderId.CountIgnoresDeletion | src/controllers/orderController.js:36 | soft-deleting an order does not change the day's count |
| NcbdOrderId.LocalDayStart | src/controllers/orderController.js:32-33 | `setHours(0, 0, 0, 0)` gives the start of the local day that holds the clock |
| NcbdOrderId.SameDaySameStart | src/controllers/orderController.js:32-35 | two clocks on the same local day share the day's window |
| NcbdOrderId.TodayCountAppend | src/controllers/orderController.js:36 | storing one more order raises the day's count by one exactly when it was created within the window |
| NcbdOrderId.OrderIdAtReadsBack | src/controllers/orderController.js:29-38 | the intended number reads back as the local date and one more than the orders counted in that local day |
| NcbdOrderId.SameDayCountsStored | src/controllers/orderController.js:32-36 | a stored order is counted by every later call on its local day |
| NcbdOrderId.OrderIdAtFresh | src/controllers/orderController.js:29-38 | with the date part and the window taken from the same local day, a stored order's number is never handed out again |
| NcbdOrderId.OrderIdCollisionAsWritten | src/controllers/orderController.js:29-38 | as written, on a server in Dhaka, an order at 23:00 and the first order after local midnight get the same number |
| NcbdOrders.ErrorStatus | src/controllers/orderController.js:61-103 | 404 exactly for a missing product or order, 409 exactly for a duplicate order number, 400 otherwise |
| NcbdOrders.Snapshot | src/controllers/orderController.js:79-90 | a stored line has the effective price (sale price when truthy and positive, else price) and the product's buy price, fixed at order time |
| NcbdOrders.Priced | src/controllers/orderController.js:67-91 | on success every line resolved to a findable product and is its snapshot, one line per requested line; a failure is a missing id or a product not found |
| NcbdOrders.PricedOk | src/controllers/orderController.js:67-77 | pricing succeeds exactly when every line names a product the find filter lets through |
| NcbdOrders.PricedFirstFailure | src/controllers/orderController.js:67-77 | the first line that does not resolve decides the failure (400 for no id, 404 for an unknown product) |
| NcbdOrders.PricedPrefixFailure | src/controllers/orderController.js:67-77 | once a prefix of the lines fails, the rest are not looked at |
| NcbdOrders.PricedStep | src/controllers/orderController.js:67-91 | after a prefix that priced, one more line either fails with that line's error or adds exactly its snapshot |
| NcbdOrders.ProductTotalAppend | src/controllers/orderController.js:80 | one more line adds its price × quantity to the product total |
| NcbdOrders.PriceLine | src/controllers/orderController.js:68-90 | one line fails with 400 when it has no product id and with 404 when the product cannot be found; otherwise it is the product's snapshot at the quantity asked |
| NcbdOrders.PriceItems | src/controllers/orderController.js:64-91 | the `for` loop returns the priced lines and their product total Σ price × quantity, or the first line's failure |
| NcbdOrders.Checked | src/controllers/orderController.js:60-104 | on success the lines are non-empty and priced, shipping ≥ 0, product total + shipping = grand total = declared payment amount |
| NcbdOrders.CheckedFailures | src/controllers/orderController.js:60-104 | no lines → 400 first; then the pricing failure; then a total below the products; a mismatch is reported only when a non-zero `totalAmount` differs from the payment amount |
| NcbdOrders.CheckOrder | src/controllers/orderController.js:60-104 | the checks of `createOrder`, in its order, give exactly `Checked` |
| NcbdOrders.NewOrder | src/controllers/orderController.js:107-115 | the order built has no history, status `Awaiting Verification`, total = grand total, the computed shipping, payment status as sent or `Pending` |
| NcbdOrders.CreateOrder | src/controllers/orderController.js:49-117 | a failed check stores nothing; otherwise the order numbered from the day's count is saved iff it passes the schema and its number is free, and is appended hooked and stamped; the collection stays valid |
| NcbdOrders.ClientDeclaredVerified | src/controllers/orderController.js:112 | a client that sends payment status `Verified` for a non-COD order gets no `Awaiting Verification` entry and keeps `Verified` |
| NcbdOrders.Cancellation | src/controllers/orderController.js:198-221 | succeeds iff the caller's own non-deleted order is not `Cancelled` and in the cancellable list; otherwise 404, already cancelled, or not cancellable |
| NcbdOrders.Verification | src/controllers/orderController.js:266-276 | succeeds iff the order is found and its payment is not yet `Verified`; otherwise 404 or already verified |
| NcbdOrders.StatusUpdate | src/controllers/orderController.js:301-307 | 404 for a missing order; otherwise the only failure is the schema rejecting the save |
| NcbdOrders.ChangeKeepsValid | src/controllers/orderController.js:217-223 | a save that keeps the number and amounts and appends one history entry keeps the collection's invariant |
| NcbdOrders.CancelOrder | src/controllers/orderController.js:192-223 | the handler over the store returns `Cancellation` and stores its order only on success; the collection stays valid |
| NcbdOrders.VerifyPayment | src/controllers/orderController.js:263-277 | the handler returns `Verification` and stores its order only on success |
| NcbdOrders.UpdateShippingStatus | src/controllers/orderController.js:297-307 | the handler returns `StatusUpdate` and stores its order only on success |
| NcbdOrders.CancellationEffect | src/controllers/orderController.js:198-221 | a cancellation sets `Cancelled`, appends exactly one `Cancelled` entry with the customer note, cannot be repeated, and no other caller can cancel the order |
| NcbdOrders.CancellableStoredStatuses | src/controllers/orderController.js:206-214 | for stored orders, cancellation succeeds exactly from Awaiting Verification, Processing or On Hold (`Packaging` never occurs), and Shipped or Delivered are refused |
| NcbdOrders.VerificationEffect | src/controllers/orderController.js:270-276 | verification sets `Verified`, its time, `Processing`, appends one `Packaging` entry, and a second verification fails |
| NcbdOrders.VerificationReopensCancelled | src/controllers/orderController.js:270-275 | verification does not look at the order status: a cancelled order with a pending payment becomes `Processing` |
| NcbdOrders.StatusUpdateAccepts | src/controllers/orderController.js:305-307 | a shipping update succeeds exactly for a status in both enums, whatever the current status, sets it and appends one entry |
| NcbdOrders.UnsettableStatuses | src/controllers/orderController.js:305-306 | `In Transit`, `Out for Delivery`, `Order Received`, `Packaging` and `Processing` cannot be set; the settable statuses are the intersection of the two enums |
| NcbdOrders.TrackOrderById | src/controllers/orderController.js:349-360 | 404 iff no non-deleted order has the number; otherwise the view of such an order with only its number, statuses, history, creation time and delivery |
| NcbdOrders.TrackingReportsDelivery | src/controllers/orderController.js:358-359 | `isDelivered` iff the status is `Delivered`, and a delivery time exactly then |
| NcbdOrders.TrackingFindsTheOrder | src/controllers/orderController.js:349 | with unique numbers, the view is that of the stored order with the number |
| NcbdAnalytics.PercentOf | src/controllers/analyticsController.js:29 | with sales, percent times sales equals profit times 100, and it lies in 0..100 when the profit lies in 0..sales; without sales it is 0 |
| NcbdAnalytics.DashboardSummary | src/controllers/analyticsController.js:12-61 | the loop sums the amounts and buy costs of the live verified orders, the profit is their difference with its percentage, and the four counts are those of their filters; pending and sold orders never outnumber live ones |
| NcbdAnalytics.CountMonotone | src/controllers/analyticsController.js:32-36 | a filter that admits less counts no more |
| NcbdAnalytics.SumsAppend | src/controllers/analyticsController.js:23-26 | summing a longer list adds the last order's amounts |
| NcbdAnalytics.SalesOrdersStep | src/controllers/analyticsController.js:15-18 | the queried orders grow by the last stored order exactly when it is sold |
| NcbdAnalytics.SalesSumsOverAll | src/controllers/analyticsController.js:15-26 | summing the queried orders equals summing every order's sales contribution |
| NcbdAnalytics.SumsAfterReplace | src/controllers/analyticsController.js:23-26 | replacing one order changes the sum of contributions by its change alone |
| NcbdAnalytics.SalesAfterReplace | src/controllers/analyticsController.js:15-26 | replacing one order changes the sales figures by exactly what that order contributes before and after |
| NcbdAnalytics.VerificationAddsSale | src/controllers/orderController.js:263-277 | confirming a payment adds the order's amount and buy cost to the dashboard's totals |
| NcbdAnalytics.CancelledSaleStillCounts | src/controllers/orderController.js:192-223 | cancelling leaves the payment as it was, so a paid order that is cancelled still counts as sold |
| NcbdAnalytics.CashOnDeliveryCountsAtOnce | src/models/Order.js:149-157 | a cash-on-delivery order is marked verified by the save hook and counts as sold from the start |
| NcbdAnalytics.SalesSumsSplit | src/models/Order.js:168-178 | over orders whose stored totals agree with the hook, sales minus buy cost is stored profit plus shipping |
| NcbdAnalytics.DashboardProfitIncludesShipping | src/controllers/analyticsController.js:28 | the dashboard's profit is the stored per-order profits plus the shipping charged on the verified orders |
| NcbdUser.EmailPatternAccepts | src/models/User.js:22 | an ordinary address such as `a@b.c` matches the email pattern |
| NcbdUser.EmailPatternNeedsDot | src/models/User.js:22 | an address whose domain has no dot does not match |
| NcbdUser.EmailPatternNeedsAt | src/models/User.js:22 | an address without `@` never matches |
| NcbdUser.EmailPatternUnanchored | src/models/User.js:22 | the pattern is unanchored, so an address with white space in its local part still matches |
| NcbdUser.AllSchemaValidAt | src/models/User.js:6-48 | in a collection where every user passes the schema, each one does |
| NcbdUser.ChangeKeepsSchemaValid | src/models/User.js:6-48 | replacing one user by a schema-valid one keeps every user schema-valid |
| NcbdUser.ChangeUserKeepsValid | src/models/User.js:8-23 | a change that keeps the username and email and passes the schema keeps both unique indexes and the schema |
| NcbdUser.AppendUserKeepsValid | src/models/User.js:8-23 | a schema-valid user who clashes with nobody on username or email can be added without breaking either index |
| NcbdAuth.ErrorStatus | src/controllers/authController.js:82-175 | the duplicate cases answer 409, a bad token or missing user 404, bad credentials 401 and an unverified account 403 |
| NcbdAuth.FindByEmail | src/controllers/authController.js:162 | a found user is live and holds the address after trimming and lower-casing |
| NcbdAuth.FindByEmailMisses | src/models/User.js:84-88 | the lookup misses exactly when no live user holds the normalised address |
| NcbdAuth.FindToken | src/controllers/authController.js:123 | a found token carries the string and the kind asked for |
| NcbdAuth.FindTokenFirst | src/controllers/authController.js:254 | the first such token is found, and none exactly when there is none |
| NcbdAuth.WithoutVerifyTokens | src/controllers/authController.js:296 | none of the user's verification tokens remains, and every other token does |
| NcbdAuth.RegisterConflict | src/controllers/authController.js:77-82 | a conflict is reported as a taken email or a taken username |
| NcbdAuth.RegisterConflictCases | src/controllers/authController.js:77-81 | no conflict exactly when no live user holds the address or the name; the email message only when a stored address equals the raw one |
| NcbdAuth.RegisterMessageUsesRawEmail | src/controllers/authController.js:79-81 | an address that differs from a stored one only in case is reported as a taken username |
| NcbdAuth.Login | src/controllers/authController.js:157-198 | success means a live user with the normalised address whose hash matches, and returns that user's id, name, address and roles |
| NcbdAuth.LoginFailuresAlike | src/controllers/authController.js:162-176 | an unknown address and a wrong password give the same 401; 403 only with verification on, a matching password and an unverified user; with verification off, success exactly when the password matches |
| NcbdAuth.ResetTokenConsumed | src/controllers/authController.js:270 | once a reset token is deleted, the same string is accepted again only if another reset token carries it |
| NcbdAuth.ResendLeavesOneToken | src/controllers/authController.js:296-299 | after a resend the user holds exactly one verification token, the new one |
| NcbdAuth.AuthStore.SendVerificationEmail | src/controllers/authController.js:33-64 | with verification off the user becomes verified and no token is made; with it on exactly one token for the user is appended |
| NcbdAuth.AuthStore.SaveNew | src/models/User.js:57-69 | validation of the plain password first, then the unique indexes; the stored user carries the hash |
| NcbdAuth.AuthStore.Enroll | src/controllers/authController.js:86-95 | a new user is stored exactly when it passes validation and no user holds its name or address, carrying the hash; then, with verification on, exactly one verification token for it is appended, and with it off the stored user is verified |
| NcbdAuth.AuthStore.Register | src/controllers/authController.js:72-113 | a conflict is answered before anything is written; otherwise validation, the indexes, then the user with the default role and either a token or the verified flag |
| NcbdAuth.AuthStore.VerifyEmail | src/controllers/authController.js:118-152 | an unknown token gives 404 and changes nothing; a token of a missing user gives 404; otherwise the token is deleted and the user is or stays verified |
| NcbdAuth.AuthStore.ForgotPassword | src/controllers/authController.js:203-243 | the same message whether or not the address is known; a reset token only for a known live user |
| NcbdAuth.AuthStore.ResetPassword | src/controllers/authController.js:248-277 | a valid token of a live user with a long enough password stores its hash and deletes the token; a short password is refused and keeps the token |
| NcbdAuth.AuthStore.ResendVerificationEmail | src/controllers/authController.js:282-306 | 404 for an unknown address, 400 for a verified user; otherwise the old verification tokens go and one verification is sent |
| NcbdCategories.ErrorStatus | src/controllers/categoryController.js:16 | a slug conflict answers 409, the three missing-document cases 404 and the guard on active subcategories 400 |
| NcbdCategories.OwnSlugNoConflict | src/controllers/categoryController.js:9-18 | a document re-submitting its own slug does not conflict with itself, since it is excluded from the query |
| NcbdCategories.DeletedSlugReachesIndex | src/controllers/categoryController.js:9-18 | the slug of a soft-deleted document passes the conflict check, which sees only visible documents, and is then refused by the unique index |
| NcbdCategories.ConflictImpliesTaken | src/controllers/categoryController.js:9-18 | whatever the conflict check refuses, the unique index would refuse as well |
| NcbdCategories.ActiveSubcategoryCount | src/controllers/categoryController.js:80 | the count is zero exactly when no subcategory that is not deleted points at the category |
| NcbdCategories.CountZeroIff | src/controllers/categoryController.js:80-81 | a count is zero exactly when no element satisfies the filter |
| NcbdCategories.CreateCategory | src/controllers/categoryController.js:27-40 | a conflicting slug gives 409; otherwise missing titles or slug fail validation and a slug held by a deleted category fails the index; success appends exactly the new category at the next `_id` and nothing else changes |
| NcbdCategories.UpdateCategory | src/controllers/categoryController.js:45-66 | the conflict check excluding `id`, then validation, then the lookup among visible categories (404); success replaces only that category |
| NcbdCategories.DeleteCategory | src/controllers/categoryController.js:71-97 | refused with 400 while an active subcategory points at it, checked before the 404; success sets only `isDeleted` and hides the category |
| NcbdCategories.CreateSubcategory | src/controllers/categoryController.js:152-176 | the parent's existence is checked before the slug conflict; success appends exactly the new subcategory |
| NcbdCategories.UpdateSubcategory | src/controllers/categoryController.js:181-209 | the slug conflict is checked first, then the parent, then validation, then the subcategory's existence; success replaces only that subcategory |
| NcbdCategories.DeleteSubcategory | src/controllers/categoryController.js:214-233 | succeeds exactly when the subcategory is visible, sets only its `isDeleted`, and checks no product that uses it |
| NcbdCategories.SortCategories | src/controllers/categoryController.js:106 | the result is a permutation ordered by English title |
| NcbdCategories.SortSubcategories | src/controllers/categoryController.js:109 | the result is a permutation ordered by English title |
| NcbdCategories.SortedVisibleCategories | src/controllers/categoryController.js:106 | only visible categories, each under its own `_id`, in English-title order |
| NcbdCategories.SortedVisibleCategoriesComplete | src/controllers/categoryController.js:106 | every visible category is among them |
| NcbdCategories.SortedVisibleSubcategories | src/controllers/categoryController.js:109 | only visible subcategories, each under its own `_id`, in English-title order |
| NcbdCategories.SortedVisibleSubcategoriesComplete | src/controllers/categoryController.js:109 | every visible subcategory is among them |
| NcbdCategories.SubsOf | src/controllers/categoryController.js:113-114 | every subcategory kept comes from the list and names the category as its parent |
| NcbdCategories.SubsOfKeepsOrder | src/controllers/categoryController.js:113-114 | filtering keeps the title order |
| NcbdCategories.SubsOfComplete | src/controllers/categoryController.js:113-114 | every subcategory of the list whose parent is the category is kept |
| NcbdCategories.Group | src/controllers/categoryController.js:112-120 | one listing per category, in order, carrying that category's subcategories |
| NcbdCategories.ListCategories | src/controllers/categoryController.js:103-126 | the visible categories in title order, each with visible subcategories whose parent it is, in title order |
| NcbdCategories.GroupCategories | src/controllers/categoryController.js:112-120 | grouping keeps the categories' order and their `_id`s |
| NcbdCategories.GroupSubcategoriesOrdered | src/controllers/categoryController.js:113-114 | each group's subcategories stay in title order |
| NcbdCategories.GroupSubcategoriesBelong | src/controllers/categoryController.js:113-114 | each grouped subcategory is visible, stored under its `_id`, and a child of its group's category |
| NcbdCategories.ListCategoriesShowsCategory | src/controllers/categoryController.js:106 | every visible category is listed |
| NcbdCategories.ListCategoriesShowsSubcategory | src/controllers/categoryController.js:109-114 | every visible subcategory is listed under its parent, wherever that parent is listed |
| NcbdCategories.OrphanedSubcategoryHidden | src/controllers/categoryController.js:106-114 | a subcategory whose parent is deleted appears under no listed category |
| NcbdCategories.VisibleCategoriesAscending | src/models/Category.js:37-40 | the hook's filter keeps the store's ascending `_id` order |
| NcbdCategories.AdminCategoriesAsWritten | src/controllers/categoryController.js:132-142 | as written, exactly the visible categories are listed: each entry is a visible category under its own `_id`, every visible category appears, newest first |
| NcbdCategories.AdminCategories | src/controllers/categoryController.js:129-136 | the intended admin listing holds every stored category, deleted ones included, newest first |
| NcbdCategories.AdminListingHidesDeleted | src/controllers/categoryController.js:134-136 | a soft-deleted category is missing from the listing as written and present in the intended one |
| NcbdCategories.ListSubcategories | src/controllers/categoryController.js:239-270 | visible subcategories only, in title order, and all of the given parent when one is given |
| NcbdCategories.ListSubcategoriesComplete | src/controllers/categoryController.js:243-250 | every visible subcategory of the parent asked for, or every one when none is given, is listed |
| NcbdProducts.FindCategory | src/controllers/productController.js:11-13 | the first visible category whose English title or slug is the name, and none exactly when no visible category is so named |
| NcbdProducts.FindSubcategory | src/controllers/productController.js:18-21 | the first visible subcategory of the given parent so named, and none exactly when there is none |
| NcbdProducts.FindCategoryIds | src/controllers/productController.js:10-27 | 404 for the category exactly when no visible category is so named; otherwise a subcategory that belongs to the found category, or 404 for the subcategory |
| NcbdProducts.FindDuplicate | src/controllers/productController.js:126-129 | a visible product, other than the one excluded, whose slug or product id clashes; none exactly when no such product exists |
| NcbdProducts.DuplicateError | src/controllers/productController.js:62-66 | the slug message exactly when the stored slug equals the slug as sent, the product-id message otherwise |
| NcbdProducts.CaseOnlySlugClashReportedAsProductId | src/controllers/productController.js:62-65 | a slug that clashes only after lower-casing is reported as a product-id clash |
| NcbdProducts.CreateProduct | src/controllers/productController.js:37-95 | the category lookups first, then the duplicate check with its message, then the schema, hook and index of the insert; only the product collection changes |
| NcbdProducts.CreatedProductProfitConsistent | src/controllers/productController.js:68-89 | the inserted product holds the request's `productId`, titles and slug after the setters, its buy price, price and images, the resolved ids, the sale price sent or `null` when left out, the status sent or the default active status, and profit figures consistent with its prices |
| NcbdProducts.MergedFieldsValid | src/controllers/productController.js:136-157 | fields sent that pass their validators, written over a document whose single fields are valid, keep them valid |
| NcbdProducts.MergedSchemaValid | src/controllers/productController.js:136-157 | an update that passes the intended validation (the sale price it ends with below the new price) gives a document that passes the whole schema |
| NcbdProducts.UpdateAsWritten | src/controllers/productController.js:136-161 | as written: succeeds exactly when the fields sent pass their validators with the sale price left out or `null`, the product is visible and the indexes allow it; a numeric sale price is always refused; the fields left out keep their values and the profit figures are left as they were |
| NcbdProducts.Update | src/controllers/productController.js:136-163 | the intended update (`findById` then `save`): a missing product is 404; otherwise it succeeds exactly when the fields sent pass and the sale price it ends with is below the new price, and the indexes allow it; only that product changes, its profit is recomputed from the new prices, and it passes the whole schema |
| NcbdProducts.UpdateAsWrittenLeavesProfitStale | src/controllers/productController.js:136-163 | a price change that succeeds as written leaves the profit figures inconsistent; the intended update takes the same request exactly when the sale price it keeps is below the new price, and then records consistent figures |
| NcbdProducts.SampleFieldsStored | src/controllers/productController.js:136-157 | the sample requests pass the validators and change only the price, or only the sale price; a sale price left out is kept |
| NcbdProducts.RepriceAsWritten | src/controllers/productController.js:163 | repricing a product from 200 to 300 keeps the recorded profit of 100 |
| NcbdProducts.RepriceCorrected | src/models/Product.js:126-143 | the intended update records a profit of 200 for the same request |
| NcbdProducts.SalePriceAsWritten | src/models/Product.js:52-58 | a sale price of 150 under a price of 200 is refused under `findByIdAndUpdate` |
| NcbdProducts.SalePriceCorrected | src/models/Product.js:52-58 | the intended update stores it, with the profit taken at the sale price |
| NcbdProducts.PriceCutAsWritten | src/controllers/productController.js:136-157 | as written, cutting the price of a product on sale at 150 from 200 to 100, with the sale price left out, is stored with the sale price above the price |
| NcbdProducts.PriceCutCorrected | src/models/Product.js:52-58 | the intended update refuses that cut while the sale price stands |
| NcbdProducts.ArchivedProductCannotBeUpdated | src/models/Product.js:146-149 | an archived product is out of reach of every later update, whatever the request |
| NcbdProducts.UpdateProductAsWritten | src/controllers/productController.js:100-169 | the category lookups, the duplicate check that excludes the product itself, then the update as written |
| NcbdProducts.UpdateProduct | src/controllers/productController.js:100-169 | the same checks in the same order, then the intended update |
| NcbdProducts.Deletion | src/controllers/productController.js:174-191 | 404 unless the product is visible; a stored sale price not below the price fails the save's validation (400) and nothing changes; otherwise only that product changes, to `isDeleted` and status `archived`, which hides it |
| NcbdProducts.DeleteTwiceNotFound | src/controllers/productController.js:178-181 | a deleted product is not found by a second delete |
| NcbdProducts.PriceCutBlocksDelete | src/controllers/productController.js:180-185 | the product left by the price cut as written is visible but can no longer be deleted: its save fails the sale-price validator |
| NcbdProducts.DeleteProduct | src/controllers/productController.js:174-191 | the store method equals `Deletion`: the products become its result on success and are unchanged on failure; the categories never change |
| NcbdProducts.NewestProductsFirst | src/controllers/productController.js:203 | a permutation with creation times descending |
| NcbdProducts.AdminProductsAsWritten | src/controllers/productController.js:197-209 | as written, exactly the visible products are listed, as a multiset, newest first |
| NcbdProducts.AdminProducts | src/controllers/productController.js:193-203 | the intended admin listing holds every stored product, deleted and archived ones included, newest first |
| NcbdProducts.AdminListingHidesDeletedProduct | src/controllers/productController.js:199-200 | a soft-deleted product is missing from the listing as written and present in the intended one |
| NcbdProducts.CategoryBySlug | src/controllers/productController.js:247 | the first visible category with the slug, and none exactly when there is none |
| NcbdProducts.SubcategoryBySlug | src/controllers/productController.js:251 | the first visible subcategory with the slug, whatever its parent |
| NcbdProducts.Found | src/controllers/productController.js:229-262 | exactly the visible products that are active and match the search and the resolved filters |
| NcbdProducts.SortProducts | src/controllers/productController.js:256-259 | a permutation by price ascending, price descending, or creation time descending by default |
| NcbdProducts.Window | src/controllers/productController.js:266-267 | skip then limit: a limit of 0 takes everything, a negative limit its absolute value |
| NcbdProducts.Abs | src/controllers/productController.js:267 | the absolute value |
| NcbdProducts.TotalPages | src/controllers/productController.js:274 | the ceiling of the total over the limit, and no number when the limit is 0 |
| NcbdProducts.GetAllProducts | src/controllers/productController.js:220-283 | a negative skip is refused; otherwise the sorted window of the matching products and the pagination computed from the count |
| NcbdProducts.ListedProductsMatch | src/controllers/productController.js:229-267 | every listed product is visible, active and passes the search and every resolved filter |
| NcbdProducts.PageWithin | src/controllers/productController.js:265-267 | a window of a permutation holds only matching products |
| NcbdProducts.UnknownCategoryIgnored | src/controllers/productController.js:246-249 | a category parameter that names no visible category filters nothing |
| NcbdProducts.CountSame | src/controllers/productController.js:270 | counts agree under filters that agree on every element |
| NcbdProducts.TotalCountsFound | src/controllers/productController.js:262-270 | `countDocuments`, without the hook, still counts exactly what `find` returns, since every deleted product is archived |
| NcbdProducts.GetProductBySlug | src/controllers/productController.js:289-313 | an active product with the slug when there is one, else an active product with that product id, else 404 |
| AdminGates.CheckAdminRole | src/middlewares/adminMiddleware.js:10-16 | passes exactly a caller whose roles include `admin` or `superadmin`, and answers 403 otherwise |
| AdminGates.CheckAdminHeader | src/middlewares/adminMiddleware.js:22-36 | an unset secret is 500 before anything else; otherwise passes exactly when the header equals the secret, and answers 401 otherwise |
| AdminGates.AdminAccess | src/middlewares/adminMiddleware.js:45-48 | passes exactly when both checks pass, and a failed role check decides the answer |
| AdminGates.AdminAuth | src/middleware/adminAuth.js:8-36 | unset key 500, missing header 401, wrong header 403, and passes exactly on the configured key |
| AdminGates.RoleCheckedFirst | src/middlewares/adminMiddleware.js:45-48 | a caller without an admin role gets 403 even when the header is wrong or the secret unset |
| AdminGates.WrongKeyStatusesDiffer | src/middleware/adminAuth.js:25-27 | a present but wrong key is 401 in the shop's gate and 403 in the order service's |
| AdminGates.GatesAgreeOnPass | src/middleware/adminAuth.js:14-27 | both gates let through exactly the configured value |
| OrdModel.FindByOrderId | src/models/order.model.js:25-30 | a found order holds the number, and none exactly when no order holds it |
| OrdModel.FindByOrderIdUnique | src/models/order.model.js:25-30 | with unique numbers, the lookup finds the one order holding the number |
| OrdModel.AppendOrderKeepsValid | src/models/order.model.js:22-92 | an order that passes the schema, with a number no order holds, keeps the collection valid |
| OrdModel.ReplaceOrderKeepsValid | src/models/order.model.js:22-92 | replacing an order by a schema-valid one with the same number keeps the collection valid |
| OrdModel.OrderStore.Insert | src/models/order.model.js:22-92 | validation first, then the unique index; success appends the order with both timestamps set and nothing else changes |
| OrdModel.OrderStore.Replace | src/models/order.model.js:22-92 | a save of a fetched order: succeeds exactly when the schema passes, and then replaces only that order with `updatedAt` set |
| OrdModel.FindBySupplierId | src/models/product.model.js:5-10 | a found product carries the supplier's id, and none exactly when no product does |
| OrdModel.AppendProductKeepsValid | src/models/product.model.js:3-56 | a product passing the stored-product checks, with a new supplier id, keeps the collection valid |
| OrdModel.ReplaceProductKeepsValid | src/models/product.model.js:3-56 | replacing a product by one passing the stored-product checks, with the same supplier id, keeps the collection valid |
| OrdModel.Inserted | src/services/supplier.service.js:76-91 | the document an upsert inserts, with the id taken from the filter (an empty one included), passes the stored-product checks exactly when its `$set` passes the update validators, and carries the id, name and description sent |
| OrdModel.Applied | src/services/supplier.service.js:76-91 | a `$set` overwrites every key sent and leaves a stored name or description in place when its key is `undefined` |
| OrdModel.AppliedSchemaValid | src/models/product.model.js:3-56 | fields that pass the update validators, set over a schema-valid product, keep it schema-valid |
| OrdModel.ProductStore.Upsert | src/services/supplier.service.js:76-91 | refused exactly when the update validators fail on the paths set (or, for a new product, when no name is sent), and then nothing changes; otherwise the product at the supplier id takes the `$set`, or a new product is appended when there is none |
| OrdOrderId.HexLower | src/utils/generateOrderId.js:10 | a nibble is written as a decimal digit or a lower-case letter `a`–`f` |
| OrdOrderId.ToUpper | src/utils/generateOrderId.js:10 | upper-casing works character by character and keeps the length |
| OrdOrderId.GenerateOrderId | src/utils/generateOrderId.js:8-16 | the number is `ORD-` and five upper-case hex digits, nine characters in all |
| OrdOrderId.UpperHexValue | src/utils/generateOrderId.js:10 | an upper-cased hex digit reads back as the nibble it was written from |
| OrdOrderId.GenerateOrderIdRoundTrip | src/utils/generateOrderId.js:10-13 | the number reads back to the first two bytes whole and the third byte's high nibble |
| OrdOrderId.GenerateOrderIdCollision | src/utils/generateOrderId.js:13 | two draws give the same number exactly when they agree on all but the third byte's low nibble, so only 2^20 numbers exist |
| OrdPricing.ConfigFrom | src/services/product.service.js:14-16 | an unset or empty variable takes its default: `percent_markup`, 15 and `to_10` |
| OrdPricing.Ceil | src/services/product.service.js:34 | the least integer not below `x` |
| OrdPricing.CeilTen | src/services/product.service.js:30-35 | the least multiple of 10 not below `x` |
| OrdPricing.RoundCents | src/services/product.service.js:37-38 | a whole number of cents within half a cent of `x` |
| OrdPricing.SellPrice | src/services/product.service.js:9-39 | 0 for a missing or non-positive price; otherwise the markup rounded up to 10 under `to_10`, and rounded to cents under any other rounding |
| OrdPricing.DefaultPricing | src/services/product.service.js:14-34 | with nothing configured, a 15% markup rounded up to a multiple of 10 |
| OrdPricing.RoundingExamples | src/services/product.service.js:31-33 | 1142.5 and 1148 both become 1150 |
| OrdPricing.OtherModeIgnoresMarkup | src/services/product.service.js:23-27 | under any mode but `percent_markup` the configured value makes no difference |
| OrdPricing.SellPriceCoversCost | src/services/product.service.js:21-34 | with a non-negative markup and rounding up to 10, the selling price is never below the buying price |
| OrdPricing.CeilTenMonotone | src/services/product.service.js:34 | rounding up to 10 keeps the order of prices |
| OrdPricing.SellPriceMonotone | src/services/product.service.js:21-34 | a dearer supplier price never gives a cheaper selling price, for a markup above -100% |
| OrdOrders.ErrorStatus | src/controllers/order.controller.js:19-68 | the request and stock errors answer 400, a missing product or order 404, exhausted numbers 500 |
| OrdOrders.Line | src/controllers/order.controller.js:30-51 | a line passes exactly when it names a product and a non-zero quantity, the product exists and its stock covers the quantity; it then snapshots the product's selling price |
| OrdOrders.Processed | src/controllers/order.controller.js:29-52 | a processed cart has one snapshot per line, each the line's own result |
| OrdOrders.ProcessedFailure | src/controllers/order.controller.js:29-42 | a cart fails exactly when some line fails, and then with the error of the first failing line |
| OrdOrders.Candidates | src/controllers/order.controller.js:58-59 | one candidate number per random draw, in order |
| OrdOrders.FirstFreeId | src/controllers/order.controller.js:56-69 | none exactly when every candidate is held; otherwise a candidate no order holds |
| OrdOrders.FirstFreeIdIsFirst | src/controllers/order.controller.js:58-65 | the loop stops at the first free candidate: every earlier one is held |
| OrdOrders.CreateAsWrittenRejected | src/controllers/order.controller.js:72-78 | as written, the document sent to `Order.create` has no `userId`, which the schema requires, so every insert fails validation |
| OrdOrders.Creation | src/controllers/order.controller.js:14-78 | a created order is `Pending`, belongs to the buyer, totals its lines and carries a number no order holds |
| OrdOrders.CreationSnapshots | src/controllers/order.controller.js:44-51 | each line of a created order is the cart's line at the product's selling price, with stock covering it, and the total is their sum |
| OrdOrders.NegativeQuantityReachesInsert | src/controllers/order.controller.js:30-40 | a quantity of -1 passes the truthiness and stock checks and is refused only by the insert |
| OrdOrders.ProcessItems | src/controllers/order.controller.js:25-52 | the loop's result is the processed cart, and its running total is the cart's total |
| OrdOrders.ProcessedAbort | src/controllers/order.controller.js:29-42 | a failure in a prefix of the cart is the failure of the whole cart |
| OrdOrders.PickOrderId | src/controllers/order.controller.js:56-65 | the loop over the five draws picks the first free candidate, or none |
| OrdOrders.CreateOrder | src/controllers/order.controller.js:14-88 | the checks, the loop and the number as `Creation` decides, then the insert; only the orders change, and the products, their stock included, stay as they were |
| OrdOrders.OrderById | src/controllers/order.controller.js:95-108 | found exactly when some order holds the number, and then that order; 404 otherwise |
| OrdOrders.CreatedOrderFound | src/controllers/order.controller.js:96-99 | an inserted order is found by its number |
| OrdPayment.ErrorStatus | src/controllers/payment.controller.js:24-108 | a missing order or customer answers 404, a used transaction id 409, and the request-state errors 400 |
| OrdPayment.PaymentDetailsFor | src/controllers/payment.controller.js:19-77 | instructions exactly for a found, pending order whose method is an MFS or a bank method; they carry its amount, number and method, and MFS instructions the receiving number, bank ones the account |
| OrdPayment.StoredOrdersGetNoBankDetails | src/models/order.model.js:63-67 | the method enum has no `Bank` or `Card`, so a stored order never reaches the bank branch |
| OrdPayment.NoMethodNoDetails | src/controllers/payment.controller.js:68-71 | a pending order without a chosen method, as orders are created, gets 400 |
| OrdPayment.Submitted | src/controllers/payment.controller.js:112-120 | the saved order is `Paid`, with the trimmed id and the time, the receiving number only for MFS, and nothing else changed |
| OrdPayment.SubmissionChecking | src/controllers/payment.controller.js:85-122 | the checks in their order: a missing id, the order's existence, `Pending`, the duplicate id, the customer; success yields the submitted order at its position |
| OrdPayment.SubmissionKeepsTransactionIdsUnique | src/controllers/payment.controller.js:101-113 | with the duplicate check on the stored value, a submission keeps transaction ids unique |
| OrdPayment.SubmissionAsWrittenDuplicates | src/controllers/payment.controller.js:101-113 | as written, submitting `"T "` for two pending orders succeeds twice and both hold `"T"`; the corrected check refuses the second |
| OrdPayment.SubmitPayment | src/controllers/payment.controller.js:85-131 | the corrected submission: on any error nothing changes, on success only that order is replaced, as saved |
| OrdPayment.SubmissionOnce | src/controllers/payment.controller.js:97-99 | after an accepted submission, a second one for the same order is refused as not pending |
| OrdAdmin.SubmittedKey | src/controllers/admin.controller.js:14 | an order without a submission time sorts before every order with one |
| OrdAdmin.VerificationQueue | src/controllers/admin.controller.js:11-25 | the intended queue is ordered by submission time, oldest first |
| OrdAdmin.VerificationQueueIsPaidOrders | src/controllers/admin.controller.js:13 | the queue holds exactly the paid orders, each as often as it is stored |
| OrdAdmin.PaidPairKept | src/controllers/admin.controller.js:13 | filtering two paid orders keeps both, in order |
| OrdAdmin.QueueOfTwo | src/controllers/admin.controller.js:14 | of two paid orders, the queue as written keeps the stored order and the intended one puts the earlier submission first |
| OrdAdmin.QueueAsWrittenOutOfOrder | src/controllers/admin.controller.js:14 | as written the sort keys all tie, so an order submitted at 5 may be shown before one submitted at 3 (store order, one of the results MongoDB may give) |
| OrdAdmin.ErrorStatus | src/controllers/admin.controller.js:39-46 | 404 exactly for a missing order, 400 for an order that is not paid or a failed validation |
| OrdAdmin.VerifiedOrder | src/controllers/admin.controller.js:49-53 | `Verified` with the time, the notes only when non-empty ones are given, and nothing else changed |
| OrdAdmin.Verification | src/controllers/admin.controller.js:32-55 | succeeds exactly for a found order that is `Paid`, yielding it verified; 404 exactly when no order holds the number |
| OrdAdmin.VerifyOrderPayment | src/controllers/admin.controller.js:32-60 | on any error nothing changes; on success only that order is replaced, as saved |
| OrdAdmin.VerifiedOnce | src/controllers/admin.controller.js:44-46 | a verified order cannot be verified again |
| OrdAdmin.PaymentLifecycle | src/controllers/payment.controller.js:97-113 | a pending order cannot be verified; once its payment is accepted it can, and ends `Verified` with its trimmed transaction id |
| OrdSupplier.BuyPrice | src/services/supplier.service.js:52-55 | the buy price is the sale price when that is a positive number, otherwise the list price |
| OrdSupplier.ImageListSound | src/services/supplier.service.js:65-73 | the image list has no duplicates, starts with the thumbnail when there is one, and holds a string exactly when it is non-empty and is the thumbnail or one of the product images |
| OrdSupplier.BuildImageList | src/services/supplier.service.js:65-73 | the loop that fills the set of images returns the image list specified by `ImageList`, a missing image array counting as empty |
| OrdSupplier.Prepared | src/services/supplier.service.js:52-62 | an item is skipped exactly when its buy price is missing or not positive or it has no id; otherwise the `$set` carries the id, the trimmed name when one is sent, the description when `details` is sent, the image list, the category or `Uncategorized`, the buy price, the sell price from the pricing rules, the stock or 0, and the sync time |
| OrdSupplier.PreparedValidity | src/services/supplier.service.js:76-91 | a prepared `$set` fails the update validators exactly when a name is sent that trims to nothing; the supplier id sits in the filter, so an empty one is not refused |
| OrdSupplier.SyncStep | src/services/supplier.service.js:51-98 | one item counts as failed exactly when it is skipped, its `$set` fails the validators, or it is new and has no name, and then nothing changes; it counts as created exactly when no product has its supplier id (the empty id included), and the new document is appended; as updated when one has, and that product takes the `$set` |
| OrdSupplier.SyncKeepsUnsentFields | src/services/supplier.service.js:79-88 | resyncing a stored product from an item without a name or `details` keeps the stored name or description; a `details` sent replaces it |
| OrdSupplier.Add | src/services/supplier.service.js:93-98 | each outcome adds one to exactly one of the three counters |
| OrdSupplier.Synced | src/services/supplier.service.js:49-99 | every item is counted once in the tally, and the store grows by exactly the number of items counted as created |
| OrdSupplier.SyncedStep | src/services/supplier.service.js:49-99 | syncing one more item is the sync of the items before it followed by one step |
| OrdSupplier.SyncResult | src/services/supplier.service.js:23-117 | the sync fails exactly when the supplier cannot be reached; an answer without products, or with an empty list, leaves the store as it was with all counters 0 |
| OrdSupplier.EmptySupplierIdStored | src/services/supplier.service.js:76-91 | an item with the id `""`, a price and a name is upserted under the supplier id `""` |
| OrdSupplier.SyncAsWrittenNeverCreates | src/services/supplier.service.js:93-94 | for one new valid item, the store gains a product but the counters as written report one update and no creation, where the intended counters report one creation |
| OrdSupplier.SyncedKeepsValid | src/services/supplier.service.js:76-91 | whatever the supplier sends, the stored products keep a trimmed non-empty name, a category and non-empty images, and keep their supplier ids unique |
| OrdSupplier.ResyncUpdates | src/services/supplier.service.js:76-91 | an item that created a product is counted as updated when it is synced again |
| OrdSupplier.ResyncReplaces | src/services/supplier.service.js:76-91 | syncing the same item again leaves the number of products unchanged and applies the new `$set`, with its sync time, to the one product for its id |
| OrdSupplier.SyncItem | src/services/supplier.service.js:51-98 | the body of the loop changes the store and returns the outcome exactly as `SyncStep` specifies, and keeps the store valid |
| OrdSupplier.SyncProducts | src/services/supplier.service.js:20-118 | the whole sync ends with the store and the tally of `SyncResult`, or with the error and the store unchanged, and keeps the store valid |

## Left out

- Sending e-mail, the mail templates and the QR code: file and network I/O. The model records no mail, and failure to send is not modelled.
- JSON Web Tokens and the authentication middleware: the caller's user id and roles are parameters.
- bcrypt: a stored password is an opaque string; hashing and comparison are function parameters.
- The clock, `crypto.randomBytes`, the random token strings and the environment variables (`ENABLE_EMAIL_VERIFICATION`, the admin keys, the pricing settings, the receiver numbers): all are parameters.
- Concurrency: every handler runs alone. The races between a duplicate check and the write, between an id try and the insert, and over stock are not modelled.
- JavaScript floating point: the shop's money is `int`, and the order service's prices and all percentages are exact `real`s. `toFixed(2)` is rounding to whole cents.
- The HTTP request to the supplier: the response, or the fact that the request failed, is a parameter. `parseFloat`/`parseInt` results are given already parsed, and a value that is not a number is absent.
- OrdModel.ProductStore.Upsert, OrdSupplier.SyncStep: a new supplier item without a name is counted as failed. The update validators check only the paths set, so the source's upsert would store a product with no name; products in the model always have one. A `details` of JSON `null` is treated like a missing one, whereas the source would write `null` over a stored description.
- Mongoose `CastError` for a malformed ObjectId: ids here are always well-formed positions.
- `populate(...)` of referenced documents in responses, and the response envelopes and messages other than the ones the contracts name.
- Token expiry through the TTL index: a token is valid until it is deleted.
- Product `tags`, `color`, `size`, `description_en`, `description_bn` and `sourceApiRef`, and the `timestamps` of categories and subcategories, carry no rule and are not fields of the model; the handlers write them as sent.
- Common.AsciiLower: lower-casing is modelled for ASCII letters only; other cased characters are kept as they are, so the `lowercase` setter on slugs, usernames and e-mails differs from `toLowerCase` for letters such as `É`.
- NcbdProducts.UpdateProduct, NcbdProducts.UpdateProductAsWritten, NcbdProducts.Update, NcbdProducts.UpdateAsWritten: a request body always carries the required fields (`productId`, titles, slug, prices, category names, images); only `salePrice` and `status` may be left out. A body without a required field is not modelled, because the category lookup and the duplicate query would then filter on `undefined`, whose meaning depends on the Mongoose version. The handling of Mongoose 5 and earlier, which write `undefined` keys as `null`, is not modelled.
- NcbdCategories.UpdateCategory, NcbdCategories.UpdateSubcategory: a request body always carries every field (both titles and the slug, and for a subcategory its parent). A body that leaves a title out would keep the stored title, but a body without the slug sends `undefined` into the conflict query's filter, whose meaning depends on the Mongoose version. A subcategory body without a parent fails `findById(undefined)` with the 404 for the parent. These partial bodies are not modelled.
- NcbdProduct.StoredProductsValid: the stored invariant does not include "sale price below price", because as written an update that leaves `salePrice` out never checks it (see the findings). The intended update and every insert keep the whole schema.
- NcbdOrders.CreateOrder: the date part and the day's window are parameters, so the handler states neither the as-written nor the intended clock; the two are compared in `NcbdOrderId.OrderIdAsWrittenAt` and `NcbdOrderId.OrderIdAt`. Dates are day numbers given to `dateOf`. The calendar behind `yyyymmdd` and daylight-saving changes are not modelled.
- Malformed input that makes the source throw rather than answer: a `null` entry among a supplier product's images or in the supplier's product list, a price that is `NaN` in `calculateSellPrice`, and a search string that is not a valid regular expression in the product listing (a 500). The model receives well-formed values.
- NcbdCategories.AdminCategories: categories have no `createdAt` in the model, so newest first is stated as the reverse of insertion order.
- Sorting.SortByKey, OrdAdmin.VerificationQueueAsWritten: MongoDB leaves the order of equal keys open. The model picks one order (a stable insertion sort), which keeps store order among ties; the contracts promise only a permutation with the keys in order, and the as-written queue, where every key ties, shows store order as one possible result.
- Grouping of subcategories compares each subcategory's `category` with the category's position, which stands for the `toString()` comparison of ObjectIds.
- The routers, the rate limiter, the CORS setup, the request validators, the loggers and the database connection: framework plumbing with no rule of the core.
- `errorHandler.js`: each error the model raises carries the status the handler answers with (400 for a validation error, 409 for a duplicate key). The handler itself is not part of this model.

## Findings

| source | as written | input that shows it | evidently intended | confidence | as-written member | corrected member |
|---|---|---|---|---|---|---|
| src/controllers/payment.controller.js:101-113 | the duplicate check looks up the transaction id as received, but the trimmed id is stored | submitting `"T "` for two pending orders: both succeed and both hold `"T"` | a transaction id is used by at most one order | high, not executed | OrdPayment.SubmissionAsWrittenDuplicates | OrdPayment.SubmitPayment |
| src/services/supplier.service.js:93-94 | `findOneAndUpdate` with `new: true` returns the document, which has no `upsertedId`, so every stored item counts as updated | one new, valid item on an empty store: as written 0 created and 1 updated | a new product counts as created | high, not executed | OrdSupplier.SyncAsWrittenNeverCreates | OrdSupplier.SyncProducts |
| src/controllers/order.controller.js:72-78 | the document given to `Order.create` has `customerDetails`, which the schema dropped, and no `userId`, which the schema requires (src/models/order.model.js:33-37) | any cart that passes the checks: the insert fails validation | the order is stored with the buyer's id | high, not executed | OrdOrders.CreateAsWrittenRejected | OrdOrders.CreateOrder |
| src/controllers/admin.controller.js:14 | the queue sorts on a top-level `submittedAt`, which no order has (the time is `paymentDetails.submittedAt`), so every key ties | two paid orders stored with submission times 5 then 3: the sort does not order them by time, and store order, 5 before 3, is one result MongoDB may return | oldest submission first | high, not executed | OrdAdmin.QueueAsWrittenOutOfOrder | OrdAdmin.VerificationQueue |
| src/controllers/productController.js:136-163 | `findByIdAndUpdate` does not run the `pre('save')` hook, so the profit fields are not recomputed | a product bought at 100 and sold at 200, repriced at 300: the recorded profit stays 100 | the profit follows the new price (200) | high, not executed | NcbdProducts.RepriceAsWritten | NcbdProducts.RepriceCorrected |
| src/models/Product.js:52-58 | under `findByIdAndUpdate` with `runValidators`, the `salePrice` validator's `this` is the query, which has no `price`, so any numeric sale price is refused | the same product put on sale at 150 with price 200: the update fails validation | a sale price below the price is accepted | medium, not executed | NcbdProducts.SalePriceAsWritten | NcbdProducts.SalePriceCorrected |
| src/controllers/categoryController.js:132-136 | "all categories, including deleted" are read through the soft-delete find hook; `select('+isDeleted')` only picks fields, so deleted categories are hidden | a soft-deleted category: missing from the listing | the admin sees deleted categories too | high, not executed | NcbdCategories.AdminListingHidesDeleted | NcbdCategories.AdminCategories |
| src/controllers/productController.js:197-203 | "all products, including deleted" go through the find hook that hides deleted and archived products | a soft-deleted product: missing from the listing | the admin sees every product | high, not executed | NcbdProducts.AdminListingHidesDeletedProduct | NcbdProducts.AdminProducts |
| src/controllers/productController.js:136-157 | update validators check only the fields being set, so an update that leaves `salePrice` out never compares the stored sale price with the new price | a product on sale at 150 with price 200, repriced at 100 without `salePrice`: stored with the sale price above the price | the sale price stays below the price, as the schema requires | medium, not executed; assumes Mongoose 6 or later | NcbdProducts.PriceCutAsWritten | NcbdProducts.PriceCutCorrected |
| src/controllers/orderController.js:29-38 | the date part is the UTC date (`toISOString`) but the count covers the server's local day (`setHours`) | on a server in Dhaka, an order at 23:00 local time and the first order after local midnight: both `NCBD-<same UTC date>-0001`, and the unique index refuses the second | the date part and the count describe the same day | medium, not executed; assumes a server clock ahead of UTC | NcbdOrderId.OrderIdCollisionAsWritten | NcbdOrderId.OrderIdAtFresh |
