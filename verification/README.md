# Turf-grass storefront and back office, modelled in Dafny

This project models the business logic of the Eastleigh turf-grass web shop and its broker
and admin dashboards, and proves properties of that model.

- **Storefront cart.** There are two carts:
  - the subscriber-notifying cart with its single `SAVE10` discount code;
  - the index-addressed cart that merges duplicate lines and caches its total.
- **Broker draft lists.** These are the order, preorder and price-inquiry drafts. Each has an
  id counter, add, remove and update operations, derived totals and differences, and a submit
  step that hands a payload to WhatsApp.
- **Product-card area calculator.** It produces a cart-item snapshot.
- **Payment-summary field helpers.** These are digit counting, cursor placement, input
  cleaning, thousands separators and the credit balance.
- **WhatsApp phone normaliser.**
- **Admin managers** for coupons, discounts, brokers, orders and settings. Each has an ordered
  chain of validation checks and create, update and delete over a list of records. The orders
  manager adds a filter pipeline and a CSV export. The settings manager adds section merges,
  backup validation and an uptime breakdown.
- **Admin session object.** It handles session timeout, sign-in, sign-out and permission
  checks.
- **Broker sign-in state.** A small record mirrored to browser storage.

## How the model is built

- **Pure code** (validators, formatters, list updates) becomes datatypes and functions with
  named results. Lemmas state the properties the code promises.
- **Objects and closures that mutate their own state** become classes, with methods that
  `modify` them. These are the carts, the drafts, the managers, the payment summary, the
  product card and the sessions.
  - Arrays the source mutates are `seq` fields that the methods reassign.
  - Browser storage is a `map<string, string>` field.
  - Each method's `ensures` gives its whole new state in terms of a specification function.
    Lemmas about that function carry the invariants: `total == unitPrice * quantity`,
    `difference == bargainPrice - originalPrice`, `cartTotal == Σ totals`, ids below the
    counter and pairwise distinct, and distinct coupon codes.
- **Values outside the program become parameters.** These are:
  - the clock;
  - the outcome of `WhatsAppService.send*`, as a boolean;
  - `toLocaleString` and date formatting, as `real -> string` and `int -> string`;
  - `confirm()`, as a boolean;
  - the random part of the admin token;
  - the product catalog, as a `seq<Product>`.
- **JavaScript semantics are written out** where they matter:
  - truthiness (`x || default`, `if (data.minOrder && …)`);
  - `parseFloat(x) || 0`, as the parsed value or 0;
  - remainder truncated toward zero (`JsRem`);
  - `Math.round`;
  - the spread-override order of `{ id, ...item }`, written out in `CartState.SpreadLine` for the
    finding below (the cart class itself stores the corrected line, see "Left out");
  - the regular expressions, as explicit predicates on strings.
- **JSON** text in storage is replaced by `StorageCodec`, a field codec with a proved round
  trip. A stored value therefore reads back as what was written.

## Model

| member | source | states |
|---|---|---|
| CartState.RateFor | src/state/cartState.js:29-37 | the discount rate is 0.1 exactly when the code is `SAVE10`, and 0 exactly when it is not |
| CartState.TotalByCode | src/state/cartState.js:39-42 | with `SAVE10` the total is 0.9 × the sum of line totals; with any other code it is that sum |
| CartState.FreshLine | src/state/cartState.js:12-14 | an added line is stamped with the clock id and keeps the item's area and total |
| CartState.SpreadLine | src/state/cartState.js:14 | as written, an item that carries its own id keeps it as the line id; only an item without one gets the clock stamp |
| CartState.WithoutId | src/state/cartState.js:19 | no line with the id remains; every other line remains; the result is a subsequence, so order is kept |
| CartState.RemoveAbsent | src/state/cartState.js:18-21 | removing an id no line has leaves the list unchanged |
| CartState.RemoveFreshLine | src/state/cartState.js:12-21 | removing the line just added (by its stamp) gives back the earlier list |
| CartState.RemoveFirst | src/state/cartState.js:63-67 | unsubscribing a callback that is not registered changes nothing; otherwise exactly one entry goes |
| CartState.RemoveFirstMultiset | src/state/cartState.js:63-67 | unsubscribing removes exactly one occurrence of the callback (multiset difference) |
| CartState.RemoveFirstAt | src/state/cartState.js:64-66 | the entry removed is the first occurrence, and the others keep their order |
| CartState.Cart.constructor | src/state/cartState.js:4-6 | an empty cart, discount 0, no subscribers |
| CartState.Cart.GetTotal | src/state/cartState.js:39-42 | subtotal less the discount: 0.9 × subtotal under a 10% discount, else the subtotal |
| CartState.Cart.Render | src/state/cartState.js:44-53 | every subscriber is called once, in registration order, with the current items, total and discount, including after one that throws |
| CartState.Cart.Add | src/state/cartState.js:12-16 | appends one line carrying the clock id (the corrected `FreshLine`, not the spread) at the end; earlier lines, discount and subscribers unchanged; subscribers notified |
| CartState.Cart.Remove | src/state/cartState.js:18-21 | the list becomes `WithoutId` of the old one; discount and subscribers unchanged; subscribers notified |
| CartState.Cart.Clear | src/state/cartState.js:23-27 | no items and discount 0; subscribers kept and notified |
| CartState.Cart.ApplyDiscount | src/state/cartState.js:29-37 | the discount becomes `RateFor(code)`, so applying a code twice is the same as once; items unchanged; the discount stays 0 or 0.1 |
| CartState.Cart.Subscribe | src/state/cartState.js:60-61 | the callback is appended; the cart is unchanged |
| CartState.Cart.Unsubscribe | src/state/cartState.js:63-68 | the first occurrence of the callback is removed, and an unregistered callback changes nothing; items and discount unchanged |
| CartState.SpreadIdRemovesSibling | src/state/cartState.js:14-19 | as written, two added items carrying the same product id get the same line id, so removing one removes both |
| CartState.FreshIdKeepsSibling | src/state/cartState.js:12-19 | with clock ids, removing the second added line keeps the first |
| CartComponent.Added | src/components/cart.js:33-44 | a line with the same id, length and width absorbs the item, so the length is unchanged; otherwise the item is appended |
| CartComponent.AddedChangesOneLine | src/components/cart.js:34-41 | a merge changes only the matching line, and in it only quantity (increased by the item's) and total |
| CartComponent.AddedCount | src/components/cart.js:33-46 | adding raises the quantity count by exactly the item's quantity |
| CartComponent.AddedKeepsConsistent | src/components/cart.js:40-46 | adding keeps every line's total equal to area × price × quantity |
| CartComponent.MergeAsWritten | src/components/cart.js:40-41 | as written, a merge adds the quantity and keeps the old total |
| CartComponent.AddedAsWritten | src/components/cart.js:33-44 | as written: with no matching line the item is appended; otherwise only the first matching line changes, its quantity raised by the item's and everything else, its total included, kept |
| CartComponent.AddedAsWrittenCount | src/components/cart.js:33-46 | as written, adding raises the item count by the item's quantity |
| CartComponent.AddedAsWrittenTotal | src/components/cart.js:33-46 | as written, a merge leaves the sum of line totals unchanged, while a new line adds its own total |
| CartComponent.Merge | src/components/cart.js:40-41 | the merged line has the summed quantity and a total repriced to match; nothing else changes |
| CartComponent.StaleMergeTotal | src/components/cart.js:41-46 | adding the same one-off item twice gives quantity 2, while the cart total still counts the line once |
| CartComponent.RepricedMergeTotal | src/components/cart.js:41-46 | with the repriced merge, the same two adds give quantity 2 and twice the item total |
| CartComponent.RemovedAt | src/components/cart.js:53-55 | an index in range removes exactly that position and keeps the others in order; an index out of range leaves the list alone |
| CartComponent.RemovedAtTotals | src/components/cart.js:53-57 | removing a line lowers the cart total and the count by exactly that line's total and quantity |
| CartComponent.QuantitySet | src/components/cart.js:63-70 | q ≤ 0 is `RemovedAt`; otherwise only that line changes, to quantity q with total area × price × q |
| CartComponent.OrderFor | src/components/cart.js:227-237 | the order sent has one line per cart line (name, quantity, unit price, total) and the cached total |
| CartComponent.ShoppingCart.Init | src/components/cart.js:14-25 | nothing or empty text stored gives an empty cart; unreadable text gives an empty cart; otherwise the parsed lines, with their total |
| CartComponent.ShoppingCart.GetCount | src/components/cart.js:334 | the count is the sum of the lines' quantities; an empty cart counts 0; non-negative quantities give a non-negative count |
| CartComponent.ShoppingCart.AddItem | src/components/cart.js:33-48 | the lines become `Added` (the corrected, repriced merge); the cached total equals the sum of line totals; storage holds the lines; the count grows by the item's quantity |
| CartComponent.ShoppingCart.RemoveItem | src/components/cart.js:53-58 | the lines become `RemovedAt`; the cached total drops by the removed line's total |
| CartComponent.ShoppingCart.UpdateItemQuantity | src/components/cart.js:63-73 | the lines become `QuantitySet`; the cached total is the sum of totals; storage is updated |
| CartComponent.ShoppingCart.ClearCart | src/components/cart.js:210-216 | no lines, total 0, empty storage |
| CartComponent.ShoppingCart.Checkout | src/components/cart.js:219-253 | an empty cart sends nothing; otherwise `OrderFor` is sent and the outcome follows the sender; the cart is never cleared |
| CartComponent.NonNegativeQuantities | src/components/cart.js:334 | non-negative quantities sum to a non-negative count |
| Catalog.Lookup | broker/js/modules/orders.js:63 | the product found is the first in the catalog with that id; nothing is found exactly when no product has the id |
| Catalog.LookupFirst | broker/js/modules/orders.js:63 | when several products share an id, the lookup returns the earliest |
| Catalog.PriceOf | broker/js/modules/orders.js:66 | the found product's price, or 0 when none is found |
| ProductCard.Priced | src/ui/productCard.js:82-87 | a quote exists exactly when width and height are both positive, with area = w × h and total = area × price |
| ProductCard.CartItemFor | src/ui/productCard.js:105-120 | the cart item copies id, name and price from the product; length is the quoted height; width, area and total come from the quote; quantity is 1 |
| ProductCard.QuotedItemConsistent | src/ui/productCard.js:86-120 | an item built from a quote has total = area × price × quantity |
| ProductCard.Card.constructor | src/ui/productCard.js:66 | the add button starts disabled, with no snapshot |
| ProductCard.Card.Calculate | src/ui/productCard.js:81-101 | input that does not parse counts as 0; an unpriceable input changes nothing; otherwise the add button is enabled and the snapshot is the quote |
| ProductCard.Card.CalculateWith | src/ui/productCard.js:85-99 | the same, for already-parsed width and height |
| ProductCard.Card.AddToCart | src/ui/productCard.js:103-124 | an item is emitted only when the button is enabled and the callback is a function; it is built from the last snapshot, not the live inputs |
| BrokerOrders.Blank | broker/js/modules/orders.js:26-33 | a new line has the counter's id, no product, quantity 1, price 0 and total 0 |
| BrokerOrders.WithoutId | broker/js/modules/orders.js:47 | no line with the id remains; every other line remains; order is kept |
| BrokerOrders.WithProduct | broker/js/modules/orders.js:62-67 | the unit price becomes the catalog price or 0, the total is repriced, and nothing else changes |
| BrokerOrders.Requantified | broker/js/modules/orders.js:68-70 | the quantity becomes the given value, the total is repriced, and nothing else changes |
| BrokerOrders.Updated | broker/js/modules/orders.js:58-72 | the id is kept; `productId` and `quantity` updates are the two above; every update keeps total = unitPrice × quantity |
| BrokerOrders.TotalIsAmounts | broker/js/modules/orders.js:77-79 | on consistent lines, the order total is Σ unitPrice × quantity |
| BrokerOrders.AddKeepsGood | broker/js/modules/orders.js:25-35 | adding keeps ids distinct and below the counter, and lines consistent; the order total is unchanged |
| BrokerOrders.RemoveKeepsGood | broker/js/modules/orders.js:46-47 | removing keeps the invariant |
| BrokerOrders.UpdateNoOp | broker/js/modules/orders.js:59-71 | an absent id or an unknown field leaves every line unchanged |
| BrokerOrders.UpdateKeepsGood | broker/js/modules/orders.js:58-71 | updating keeps the invariant and replaces only the line with that id |
| BrokerOrders.QuantityInputIsUpdate | broker/js/modules/orders.js:114-119 | the inline quantity handler does exactly what `updateItem(id, "quantity", v)` does |
| BrokerOrders.OrderDraft.constructor | broker/js/modules/orders.js:3-5 | no lines and counter 1 |
| BrokerOrders.OrderDraft.AddItem | broker/js/modules/orders.js:25-43 | appends `Blank(counter)` and increments the counter; the order total is unchanged |
| BrokerOrders.OrderDraft.RemoveItem | broker/js/modules/orders.js:46-55 | the lines become `WithoutId`; the counter is unchanged |
| BrokerOrders.OrderDraft.UpdateItem | broker/js/modules/orders.js:58-74 | the lines become the update of the line with that id; the counter is unchanged |
| BrokerOrders.OrderDraft.OnQuantityInput | broker/js/modules/orders.js:114-132 | the same state as the `quantity` update |
| BrokerOrders.OrderDraft.CalculateTotal | broker/js/modules/orders.js:77-79 | an empty order totals 0 (with `TotalIsAmounts` for the general sum) |
| Preorders.Blank | dist/js/modules/preorders.js:26-35 | a new line has quantity 1, zero price and total, and empty date and notes |
| Preorders.WithoutId | dist/js/modules/preorders.js:49 | no line with the id remains; every other line remains; order is kept |
| Preorders.WithProduct | dist/js/modules/preorders.js:64-69 | catalog price or 0, total repriced, nothing else changed |
| Preorders.Requantified | dist/js/modules/preorders.js:70-72 | new quantity, total repriced, nothing else changed |
| Preorders.Updated | dist/js/modules/preorders.js:60-77 | `expectedDate` and `specialNotes` are stored verbatim; price updates reprice; every update keeps total = unitPrice × quantity |
| Preorders.Prepare | dist/js/modules/preorders.js:204-234 | an empty list, or a line with no product or a quantity ≤ 0, is rejected in that order; otherwise the payload has one line per item, the first line's date and notes (defaulting to "Not specified" and "None"), and total = Σ totals |
| Preorders.AddKeepsGood | dist/js/modules/preorders.js:25-37 | adding keeps ids distinct and below the counter, and lines consistent |
| Preorders.RemoveKeepsGood | dist/js/modules/preorders.js:48-49 | removing keeps the invariant |
| Preorders.UpdateKeepsGood | dist/js/modules/preorders.js:60-77 | updating keeps the invariant and replaces only the line with that id |
| Preorders.UpdateNoOp | dist/js/modules/preorders.js:61-77 | an absent id or an unknown field leaves every line unchanged |
| Preorders.TotalIsAmounts | dist/js/modules/preorders.js:83-85 | in a good draft the total is Σ unitPrice × quantity over the lines |
| Preorders.TextUpdateKeepsTotals | dist/js/modules/preorders.js:73-77 | date and notes updates leave the preorder total unchanged |
| Preorders.PreorderDraft.constructor | dist/js/modules/preorders.js:3-5 | no lines and counter 1 |
| Preorders.PreorderDraft.AddPreorder | dist/js/modules/preorders.js:25-45 | appends `Blank(counter)`, increments the counter, and the item count grows by one |
| Preorders.PreorderDraft.GetItemCount | dist/js/modules/preorders.js:261-263 | the number of lines in the draft |
| Preorders.PreorderDraft.RemovePreorder | dist/js/modules/preorders.js:48-57 | the lines become `WithoutId` |
| Preorders.PreorderDraft.UpdatePreorder | dist/js/modules/preorders.js:60-80 | the lines become the update of the line with that id |
| Preorders.PreorderDraft.SubmitPreorders | dist/js/modules/preorders.js:204-258 | a rejected list sends nothing and changes nothing; otherwise the prepared payload is sent; on success the list empties and the counter resets to 1; on failure nothing changes |
| Inquiry.Blank | dist/js/modules/inquiry.js:26-33 | a new line has original price, bargain price and difference 0 |
| Inquiry.WithoutId | dist/js/modules/inquiry.js:47 | no line with the id remains; every other line remains; order is kept |
| Inquiry.WithProduct | dist/js/modules/inquiry.js:62-67 | the original price becomes the catalog price or 0; difference = bargain − original; nothing else changes |
| Inquiry.WithBargain | dist/js/modules/inquiry.js:68-70 | the bargain price becomes the parsed value or 0; difference = bargain − original; nothing else changes |
| Inquiry.Updated | dist/js/modules/inquiry.js:58-71 | the id is kept, and every update keeps difference = bargain − original |
| Inquiry.DifferenceClass | dist/js/modules/inquiry.js:77-81 | "negative", "positive" or "neutral" exactly by the sign of the difference |
| Inquiry.SignPrefix | dist/js/modules/inquiry.js:86 | "-", "+" or "" exactly by the sign of the difference |
| Inquiry.Abs | dist/js/modules/inquiry.js:85 | `Math.abs`: non-negative, and either the value or its negation |
| Inquiry.FormatPriceDifference | dist/js/modules/inquiry.js:84-91 | a negative difference shows "-KES " and its magnitude, a positive one "+KES " and itself, zero "KES " and 0 |
| Inquiry.SignMatchesClass | dist/js/modules/inquiry.js:77-91 | the sign prefix agrees with the class, and a difference and its negation format the same after the sign |
| Inquiry.Prepare | dist/js/modules/inquiry.js:180-208 | an empty list, or a line with no product or a bargain ≤ 0, is rejected in that order; otherwise the payload lists every line, with totalOriginal = Σ original and totalBargain = Σ bargain |
| Inquiry.ReadyBargainPositive | dist/js/modules/inquiry.js:187-207 | a submittable list has a positive bargain total |
| Inquiry.AddKeepsGood | dist/js/modules/inquiry.js:25-35 | adding keeps ids distinct and below the counter, and differences consistent |
| Inquiry.RemoveKeepsGood | dist/js/modules/inquiry.js:46-47 | removing keeps the invariant |
| Inquiry.UpdateKeepsGood | dist/js/modules/inquiry.js:58-71 | updating keeps the invariant and replaces only the line with that id |
| Inquiry.UpdateNoOp | dist/js/modules/inquiry.js:59-71 | an absent id or an unknown field leaves every line unchanged |
| Inquiry.InquiryDraft.constructor | dist/js/modules/inquiry.js:3-5 | no lines and counter 1 |
| Inquiry.InquiryDraft.AddInquiry | dist/js/modules/inquiry.js:25-43 | appends `Blank(counter)`, increments the counter, and the item count grows by one |
| Inquiry.InquiryDraft.GetItemCount | dist/js/modules/inquiry.js:235-237 | the number of lines in the draft |
| Inquiry.InquiryDraft.RemoveInquiry | dist/js/modules/inquiry.js:46-55 | the lines become `WithoutId` |
| Inquiry.InquiryDraft.UpdateInquiry | dist/js/modules/inquiry.js:58-74 | the lines become the update of the line with that id |
| Inquiry.InquiryDraft.SubmitInquiries | dist/js/modules/inquiry.js:180-232 | a rejected list sends nothing and changes nothing; otherwise the prepared payload is sent; on success the list empties and the counter resets to 1; on failure nothing changes |
| Dashboard.CountDigitsBeforePosition | dist/js/dashboard.js:129-137 | the number of digits among the first min(position, length) characters, and so at most that many |
| Dashboard.GetPositionAfterDigits | dist/js/dashboard.js:145-164 | a position in [0, length]; 0 for a count ≤ 0; for 1 ≤ k ≤ the digits present, the prefix ends in a digit and holds exactly k digits; past the digits present, the length |
| Dashboard.DigitCount | dist/js/dashboard.js:129-137 | the number of digits in a text is at most its length |
| Dashboard.DigitCountAppend | dist/js/dashboard.js:129-137 | digits of a concatenation add up |
| Dashboard.DigitCountFilter | dist/js/dashboard.js:94 | removing characters other than digits keeps the digit count |
| Dashboard.Clean | dist/js/dashboard.js:94-101 | the cleaned text holds only digits and '.' |
| Dashboard.CleanShape | dist/js/dashboard.js:94-101 | the cleaned text is the digits before the input's first '.', that '.', and the digits after it; without a '.', just the digits |
| Dashboard.CleanDigits | dist/js/dashboard.js:94-101 | the cleaned text has at most one '.' and as many digits as the input |
| Dashboard.CleanIdempotent | dist/js/dashboard.js:94-101 | cleaning twice is cleaning once |
| Dashboard.InsertCommasGroups | dist/js/dashboard.js:178 | on digits, the separator pattern puts a ',' between groups of three counted from the right, and nowhere else |
| Dashboard.RemoveCommas | dist/js/dashboard.js:230-233 | the text without commas contains no ',' |
| Dashboard.FormatNumberWithCommas | dist/js/dashboard.js:171-182 | empty text stays empty; everything from the first '.' on is kept verbatim at the end |
| Dashboard.ParseFormattedNumber | dist/js/dashboard.js:230-233 | the number the text spells once its commas are removed, or 0 when it is not a number |
| Dashboard.CommasFromRemoved | dist/js/dashboard.js:178 | the separator pass inserts only commas: removing them gives back the digits |
| Dashboard.FormatRemovesToSame | dist/js/dashboard.js:171-182 | deleting the commas from the formatted text gives the input with its commas deleted; the fraction part is untouched |
| Dashboard.FormatCleanGroups | dist/js/dashboard.js:171-182 | on cleaned input, formatting groups the whole part in threes and keeps the '.' and fraction as they are |
| Dashboard.FormatKeepsDigits | dist/js/dashboard.js:171-182 | formatting neither adds nor drops a digit |
| Dashboard.CleanIgnoresCommas | dist/js/dashboard.js:94-104 | cleaning a formatted text gives what cleaning the unformatted text gives |
| Dashboard.ReformatIdempotent | dist/js/dashboard.js:94-104 | reformatting the field's formatted text leaves it as it is |
| Dashboard.ReformatKeepsDigits | dist/js/dashboard.js:91-112 | the digits before the cursor are all still present after reformatting, so the cursor can be placed after them |
| Dashboard.FormattedParsesBack | dist/js/dashboard.js:230-233 | parsing a formatted text gives the number the unformatted text gives: commas are ignored |
| Dashboard.GroupedParses | dist/js/dashboard.js:230-233 | a digit string grouped with commas parses to its own value |
| Dashboard.Credit | dist/js/dashboard.js:269 | the credit is never negative, and is either 0 or total − payment, at least the latter |
| Dashboard.CreditSettles | dist/js/dashboard.js:263-272 | a payment up to the total plus the credit makes the total; an overpayment leaves credit 0 |
| Dashboard.PaymentSummary.constructor | dist/js/dashboard.js:11-36 | the fields as the page shows them, not formatting, and the credit field already showing the formatted credit of those fields, as `initialize()` computes it |
| Dashboard.PaymentSummary.UpdateCreditBalance | dist/js/dashboard.js:250-273 | the credit field shows the formatted credit of the parsed total and payment; nothing else changes |
| Dashboard.PaymentSummary.EnsureProperDecimalFormatting | dist/js/dashboard.js:209-223 | the amount field is rewritten only when it parses to a value > 0 |
| Dashboard.PaymentSummary.HandleInputBlur | dist/js/dashboard.js:201-204 | the credit is updated, then the amount is reformatted under the same guard |
| Dashboard.PaymentSummary.HandleKeyDown | dist/js/dashboard.js:188-196 | a key other than Enter changes nothing; Enter updates the credit and then acts as blur |
| Dashboard.PaymentSummary.HandleInputFormatting | dist/js/dashboard.js:82-121 | the re-entrant call changes nothing; otherwise the field becomes `Reformat` of the old text, the cursor follows the same digits, and the credit is refreshed |
| WhatsApp.FormatPhoneNumber | src/services/whatsapp.js:85-99 | the result is digits only; it starts with 254 exactly when the cleaned digits start with 254, 0 or 7; otherwise it is the cleaned digits |
| WhatsApp.NationalPart | src/services/whatsapp.js:90-95 | 254… is kept; a leading 0 is replaced by 254; a leading 7 gets 254 in front |
| WhatsApp.FormatPhoneIdempotent | src/services/whatsapp.js:85-99 | formatting a formatted number changes nothing |
| WhatsApp.KenyanPhoneNormalises | src/services/whatsapp.js:85-99 | a number the admin forms accept as Kenyan formats to 254 followed by its nine subscriber digits |
| AdminCoupons.ValidateCouponData | js/admin/coupons.js:363-400 | the error reported is the first failing check in source order; acceptance happens exactly for acceptable data, or acceptable data whose usage limit is 0 |
| AdminCoupons.ValidateCouponDataIntended | js/admin/coupons.js:363-400 | accepts exactly the acceptable data, including a positive usage limit; agrees with the as-written check on every other error |
| AdminCoupons.ZeroUsageLimitAccepted | js/admin/coupons.js:394 | a coupon with usage limit 0 passes as written, has no usage percentage, and is rejected by the intended check |
| AdminCoupons.AcceptedHasPercentage | js/admin/coupons.js:132 | a coupon the intended check accepts, with a limit, has a usage percentage, within [0, 100] while uses ≤ limit |
| AdminCoupons.UsagePercentage | js/admin/coupons.js:132 | a percentage exists exactly when a non-zero limit is set, and lies in [0, 100] while 0 ≤ uses ≤ limit |
| AdminCoupons.ReadForm | js/admin/coupons.js:265-276 | the code is upper-cased (same length, no lower-case letter) and the value is parsed |
| AdminCoupons.OptionalReal | js/admin/coupons.js:270-271 | an empty field gives `null`; otherwise the parsed number |
| AdminCoupons.OptionalInt | js/admin/coupons.js:272 | an empty field gives `null`; otherwise the parsed integer |
| AdminCoupons.ValidateCouponForm | js/admin/coupons.js:402-415 | save is enabled exactly when the code has ≥ 3 characters and the value parses to > 0 |
| AdminCoupons.NewCoupon | js/admin/coupons.js:316-322 | a new coupon carries the data, the clock id, 0 uses, 0 savings and is active |
| AdminCoupons.WithoutId | js/admin/coupons.js:352 | no coupon with the id remains; every other coupon remains; order is kept |
| AdminCoupons.UpdateChangesOne | js/admin/coupons.js:332-338 | only the coupon with the id can change, and only to its data merged; an absent id changes nothing |
| AdminCoupons.EditIsNoOp | js/admin/coupons.js:295-296 | an edit with no editing id changes nothing |
| AdminCoupons.SaveKeepsCodesDistinct | js/admin/coupons.js:284-299 | a save whose code is not yet taken keeps coupon codes distinct |
| AdminCoupons.DeleteKeepsCodesDistinct | js/admin/coupons.js:352 | deleting keeps coupon codes distinct |
| AdminCoupons.CouponManager.constructor | js/admin/coupons.js:3-7 | no coupons |
| AdminCoupons.CouponManager.CreateCoupon | js/admin/coupons.js:312-326 | appends `NewCoupon` |
| AdminCoupons.CouponManager.UpdateCoupon | js/admin/coupons.js:328-341 | the list becomes the merge into the coupon with that id |
| AdminCoupons.CouponManager.DeleteCoupon | js/admin/coupons.js:343-361 | without confirmation nothing changes; with it, the list becomes `WithoutId` |
| AdminCoupons.CouponManager.SaveCoupon | js/admin/coupons.js:260-310 | validated by the corrected `ValidateCouponDataIntended`; a failing check or a taken code changes nothing and reports why; otherwise create or edit; codes stay distinct |
| AdminDiscounts.ValidateDiscountData | js/admin/discounts.js:343-370 | the error reported is the first failing check in source order; acceptance happens exactly for acceptable data |
| AdminDiscounts.ReadForm | js/admin/discounts.js:253-264 | `active` holds exactly when the field is the text "true"; name copied, value parsed |
| AdminDiscounts.OptionalReal | js/admin/discounts.js:258-259 | an empty field gives `null`; otherwise the parsed number |
| AdminDiscounts.ValidateDiscountForm | js/admin/discounts.js:372-384 | save is enabled exactly when the name is non-empty and the value parses to > 0 |
| AdminDiscounts.NewDiscount | js/admin/discounts.js:297-304 | a new discount carries the data, the clock id, 0 uses and 0 savings |
| AdminDiscounts.WithoutId | js/admin/discounts.js:332 | no discount with the id remains; every other discount remains; order is kept |
| AdminDiscounts.UpdateChangesOne | js/admin/discounts.js:312-318 | only the discount with the id can change, and only to its data merged; an absent id changes nothing |
| AdminDiscounts.EditIsNoOp | js/admin/discounts.js:274-277 | an edit with no editing id changes nothing |
| AdminDiscounts.DiscountManager.constructor | js/admin/discounts.js:3-7 | no discounts |
| AdminDiscounts.DiscountManager.CreateDiscount | js/admin/discounts.js:293-306 | appends `NewDiscount` |
| AdminDiscounts.DiscountManager.UpdateDiscount | js/admin/discounts.js:308-321 | the list becomes the merge into the discount with that id |
| AdminDiscounts.DiscountManager.DeleteDiscount | js/admin/discounts.js:323-341 | without confirmation nothing changes; with it, the list becomes `WithoutId` |
| AdminDiscounts.DiscountManager.SaveDiscount | js/admin/discounts.js:248-291 | reports the validation result; an error changes nothing; otherwise create or edit |
| AdminBrokers.IsValidEmail | js/admin/brokers.js:405-408 | an accepted address has at least five characters and starts and ends with a character that is neither white space nor '@' |
| AdminBrokers.ValidEmailShape | js/admin/brokers.js:405-408 | an address the pattern accepts has exactly one '@' and no white space |
| AdminBrokers.KenyanPhoneNotBlank | js/admin/brokers.js:371-381 | a phone that matches the Kenyan pattern after stripping spaces is never blank |
| AdminBrokers.ValidateBrokerData | js/admin/brokers.js:365-403 | the error reported is the first failing check in source order (name, phone, Kenyan phone, e-mail when given, password when new); acceptance happens exactly for acceptable data |
| AdminBrokers.ValidateBrokerForm | js/admin/brokers.js:419-441 | the form is enabled exactly when it has a name, phone and role and, when new, a password of ≥ 6 characters matching its confirmation |
| AdminBrokers.AcceptedEnablesSave | js/admin/brokers.js:365-441 | data the validator accepts, with a role, enables the save button |
| AdminBrokers.RoleDisplay | js/admin/brokers.js:194-201 | the three roles get their labels; any other role is shown as it is |
| AdminBrokers.DefaultCommission | js/admin/brokers.js:410-417 | the rate lies in [5, 6]; it is 5.5 exactly for senior brokers, 6 exactly for managers, and 5 for brokers and every other role |
| AdminBrokers.HalfScore | js/admin/brokers.js:209-210 | each half-score is capped at 50, non-negative for non-negative stats, and 50 at or above average |
| AdminBrokers.PerformancePercentage | js/admin/brokers.js:203-213 | non-negative stats give a score in [0, 100]; both at or above average give 100 |
| AdminBrokers.NewBroker | js/admin/brokers.js:307-321 | a new broker copies the form, joins today, has 0 orders and revenue, and the role's default commission |
| AdminBrokers.WithoutId | js/admin/brokers.js:352 | no broker with the id remains; every other broker remains; order is kept |
| AdminBrokers.UpdateKeepsStats | js/admin/brokers.js:329-340 | an update keeps every broker's id, join date, stats and commission, changes only the broker with that id, and an absent id changes nothing |
| AdminBrokers.BrokerManager.constructor | js/admin/brokers.js:3-7 | no brokers |
| AdminBrokers.BrokerManager.CreateBroker | js/admin/brokers.js:303-323 | appends `NewBroker` |
| AdminBrokers.BrokerManager.UpdateBroker | js/admin/brokers.js:325-343 | the list becomes the update of the broker with that id |
| AdminBrokers.BrokerManager.DeleteBroker | js/admin/brokers.js:345-363 | without confirmation nothing changes; with it, the list becomes `WithoutId` |
| AdminBrokers.BrokerManager.SaveBroker | js/admin/brokers.js:259-301 | reports the validation result; an error changes nothing; a new broker is appended; an edit with no editing id changes nothing |
| AdminOrders.FilteredOrders | js/admin/orders.js:200-229 | never longer than the orders; every order kept is among them and passes all three filters |
| AdminOrders.FilteredOrdersSpec | js/admin/orders.js:200-229 | the result is a subsequence of the orders, and an order is in it exactly when it passes the status, date and search filters |
| AdminOrders.FilteredIsOneFilter | js/admin/orders.js:200-229 | the three passes are one filter by their conjunction |
| AdminOrders.NoFiltersKeepAll | js/admin/orders.js:204-218 | status "all", date "all" and an empty search keep every order |
| AdminOrders.StatusClass | js/admin/orders.js:231-239 | a known status is its own class; any other is "pending" |
| AdminOrders.StatusText | js/admin/orders.js:241-249 | one of the four labels; an unknown status reads "Pending" |
| AdminOrders.StatusTextMatchesClass | js/admin/orders.js:231-249 | the label is always the class with its first letter upper-cased |
| AdminOrders.StatusUpdateChangesOne | js/admin/orders.js:398-402 | the length is kept and every order either stays or only changes status; orders with another id stay; an absent id changes nothing; otherwise exactly the first order with that id gets the new status |
| AdminOrders.Quote | js/admin/orders.js:501 | a cell is wrapped in double quotes around its unchanged text |
| AdminOrders.Cells | js/admin/orders.js:487-499 | a row has one cell per header, with the id first, the status label ninth and the broker last |
| AdminOrders.Table | js/admin/orders.js:484-501 | the header row followed by row i + 1 = the cells of order i, every row as wide as the header |
| AdminOrders.CsvContent | js/admin/orders.js:484-502 | the text starts with the quoted header row, and with no orders it is that row alone |
| AdminOrders.CsvLineCount | js/admin/orders.js:501 | when no cell holds a newline, the text has exactly one newline per order |
| AdminOrders.CsvLines | js/admin/orders.js:484-501 | when no cell holds a newline, splitting the text at newlines gives the header row and then the row of each order, in order |
| AdminOrders.OrderManager.constructor | js/admin/orders.js:3-10 | no orders; filters status "all", last 30 days, no search |
| AdminOrders.OrderManager.GetFilteredOrders | js/admin/orders.js:200-229 | a subsequence of the orders holding exactly those that pass the current filters |
| AdminOrders.OrderManager.SetFilters | js/admin/orders.js:448-452 | the filters become the chosen ones; the orders are unchanged |
| AdminOrders.OrderManager.UpdateOrderStatus | js/admin/orders.js:393-411 | the orders become the status update: same length, every order with another id unchanged; the filters are unchanged |
| AdminOrders.OrderManager.ExportOrders | js/admin/orders.js:456-462 | the exported text is the CSV of the filtered orders, with one newline per exported order |
| AdminSettings.Get | js/admin/settings.js:278-285 | a property read finds a value exactly when the value is an object holding that key |
| AdminSettings.ValidateGeneralSettings | js/admin/settings.js:172-191 | accepted exactly when the company name is not blank and the number, with spaces removed, matches the Kenyan pattern; a blank name is the error reported whenever the name is blank, and a missing number exactly when the name is present and the number blank |
| AdminSettings.ValidateSecuritySettings | js/admin/settings.js:193-205 | accepted exactly when 5 ≤ timeout ≤ 120 and 3 ≤ attempts ≤ 10; the timeout error is reported exactly when the timeout is out of range |
| AdminSettings.MergeKeepsOthers | js/admin/settings.js:125-128 | merging into a section changes only that section, where new fields win and old fields not given are kept |
| AdminSettings.BackupRestores | js/admin/settings.js:210-214 | a backup of settings with general and security sections passes the backup check and holds those settings |
| AdminSettings.ValidateBackupData | js/admin/settings.js:278-285 | an accepted backup is an object whose settings object holds a general section and a truthy security section |
| AdminSettings.BackupNeedsSecurity | js/admin/settings.js:278-285 | a backup whose settings lack a security section is refused |
| AdminSettings.JsRem | js/admin/settings.js:306-307 | `%` on a divisor > 0 is the Euclidean remainder for non-negative operands and lies strictly between −divisor and divisor |
| AdminSettings.GetUptime | js/admin/settings.js:299-310 | for elapsed time ≥ 0: days ≥ 0, hours in [0, 23], minutes in [0, 59] |
| AdminSettings.UptimeText | js/admin/settings.js:299-309 | for time since the start, the text is days "d ", hours "h ", minutes "m", each a plain decimal that `parseInt` reads back as that part |
| AdminSettings.UptimeRecombines | js/admin/settings.js:303-307 | days, hours and minutes recombine to the elapsed time rounded down to the minute |
| AdminSettings.SettingsManager.constructor | js/admin/settings.js:3-7 | no settings sections |
| AdminSettings.SettingsManager.SaveGeneralSettings | js/admin/settings.js:104-136 | an invalid form changes nothing; a valid one merges company name, number and currency into the general section |
| AdminSettings.SettingsManager.SaveSecuritySettings | js/admin/settings.js:138-170 | an invalid form changes nothing; a valid one merges into the security section, keeping the password policy |
| AdminSettings.SettingsManager.RestoreSettings | js/admin/settings.js:236-276 | settings are replaced exactly when the backup passes the check and the user confirms; then general and security are present |
| AdminAuth.MockAdmin | js/admin/auth.js:121-128 | the signed-in user has the given name, role super_admin, and the admin permission |
| AdminAuth.UserText | js/admin/auth.js:140 | the stored text is "null" exactly when nobody is signed in |
| AdminAuth.FieldsRoundTrip | js/admin/auth.js:140 | the fields a user is stored as read back as that user |
| AdminAuth.UserRoundTrip | js/admin/auth.js:140 | the stored user text reads back as the same user, `null` included |
| AdminAuth.GenerateToken | js/admin/auth.js:160-163 | a token is non-empty and starts with `admin_token_` |
| AdminAuth.CheckStatus | js/admin/auth.js:33-56 | no session exactly when token, user or activity time is missing; expired exactly when all are present but the time does not parse or is ≥ 30 min old; live exactly when fresh with a readable user, which is the user restored |
| AdminAuth.Cleared | js/admin/auth.js:174-177 | the three session keys are gone and every other key is kept |
| AdminAuth.SessionSurvivesUntilTimeout | js/admin/auth.js:33-50 | a sign-in is live for any check less than 30 minutes after its last activity and expired from then on |
| AdminAuth.ClearedHasNoSession | js/admin/auth.js:174-177 | after clearing, a check finds no session |
| AdminAuth.AdminAuth.constructor | js/admin/auth.js:3-13 | start-up runs the session check: live restores the user and refreshes the activity time; expired clears; otherwise signed out with storage untouched |
| AdminAuth.AdminAuth.CheckSession | js/admin/auth.js:33-56 | reports `CheckStatus`; live signs in and refreshes the activity time; expired clears the session; otherwise nothing changes |
| AdminAuth.AdminAuth.UpdateLastActivity | js/admin/auth.js:58-60 | only the activity time changes, to now |
| AdminAuth.AdminAuth.AuthenticateUser | js/admin/auth.js:111-134 | succeeds exactly for admin / admin123, setting the mock user; otherwise nothing changes |
| AdminAuth.AdminAuth.LoginSuccess | js/admin/auth.js:136-144 | token, user and activity time are stored and the session is signed in |
| AdminAuth.AdminAuth.Logout | js/admin/auth.js:165-172 | the session is cleared |
| AdminAuth.AdminAuth.ClearSession | js/admin/auth.js:174-181 | the three keys are removed, signed out, with no user |
| AdminAuth.AdminAuth.IsAuthenticated | js/admin/auth.js:469-471 | authenticated exactly when the signed-in flag is set and a user is held |
| AdminAuth.AdminAuth.HasPermission | js/admin/auth.js:477-483 | false without a user or a permission list; with `admin` in the list always true; otherwise true exactly when the permission is listed |
| AdminAuth.AdminMayDoAnything | js/admin/auth.js:121-128 | the mock admin has every permission |
| AdminAuth.SignInThenReload | js/admin/auth.js:111-158 | signing in succeeds exactly with the admin credentials, and a reload within 30 minutes resumes the session |
| AuthState.RoleOrBroker | src/state/authState.js:37 | the role given, or "broker" when missing or empty; never empty |
| AuthState.LoadState | src/state/authState.js:17-25 | a missing key, empty text, or text that does not parse as a record gives signed out; any other state loaded is the record the text holds |
| AuthState.SaveThenLoad | src/state/authState.js:9-25 | a saved state is what the next load finds |
| AuthState.LoggedIn | src/state/authState.js:33-39 | after login: signed in, with the username given and a non-empty role |
| AuthState.AuthStore.constructor | src/state/authState.js:28 | the state is what storage loads to |
| AuthState.AuthStore.Login | src/state/authState.js:32-41 | the state becomes `LoggedIn(user)`, saved under the key, and storage loads back to it |
| AuthState.AuthStore.Logout | src/state/authState.js:42-45 | signed out, saved, and storage loads back to it |
| AuthState.AuthStore.IsLoggedIn | src/state/authState.js:46-48 | exactly the state's signed-in flag; false when signed out |
| AuthState.AuthStore.GetUser | src/state/authState.js:49-51 | exactly the state's user; no user when signed out |
| AuthState.AuthStore.Clear | src/state/authState.js:52-55 | the key is removed, signed out, and storage loads back to it |
| AuthState.LoginThenReload | src/state/authState.js:28-51 | a login survives a reload, with the same user and role "broker" when none was given |
| AuthState.SignedOutAfterReload | src/state/authState.js:42-55 | after logout or clear, a reload finds nobody signed in |
| Numbers.ParseIntRoundTrip | js/admin/auth.js:40 | the activity time written as text parses back to the same integer |
| Numbers.DigitsParse | dist/js/dashboard.js:232 | a digit string parses to its own value |
| Numbers.ParseInt | js/admin/auth.js:40 | a parsed integer comes from non-empty text |
| Numbers.ParseDecimal | dist/js/dashboard.js:232 | a leading '-' negates what the rest parses to; otherwise the unsigned parse |
| Numbers.NatToStringValue | js/admin/auth.js:59 | the decimal text of a natural number has that value |
| Numbers.Round | js/admin/brokers.js:212 | `Math.round` gives the integer within half of the value, rounding halves up |
| StorageCodec.RoundTrip | src/state/authState.js:11-20 | stored text decodes to exactly the fields encoded |
| StorageCodec.EncodeInjective | src/state/authState.js:11 | different field lists are stored as different texts |

## Left out

- Rendering, the DOM, toasts, modals, event wiring, `updateUI` and `updateCartDisplay` are
  left out. Missing DOM elements are left out too, so every handler is modelled with its
  elements present.
- The network and product loading (`fetch`, `loadProducts`, mock data in `load*`) are left
  out; the catalog is a parameter.
- `JSON.stringify` and `JSON.parse` are replaced by a field codec with a proved round trip.
  - Parsing an arbitrary stored object is left out.
  - A cart in storage that parses is a parameter, `parse`.
  - An `authState` text that parses to something other than a record is treated as signed out.
  - Save errors, which the source catches and logs, are left out.
- `parseFloat` is modelled on its complete forms only: an optional '-', digits, an optional
  fraction. A prefix that parses followed by trailing junk, exponents and `Infinity` count
  as not a number. `parseInt` likewise accepts only an optional '-' and digits.
- Floating point is replaced by exact `real` arithmetic.
  - `toFixed`, `toLocaleString` and `toISOString` are parameters.
  - Upper-casing covers ASCII letters only.
  - Lower-casing covers ASCII letters only, including in the admin order search
    (js/admin/orders.js:218-224), so a search differing from an order only in the case of a
    non-ASCII letter does not match in the model while it can in the source.
- `Date.now()` and `new Date()` are parameters. A calendar day is taken as 86,400,000 ms.
- `setTimeout`, `setInterval`, the simulated network delays, and the admin session timer and
  activity listeners (`startSessionTimer`, `bindAuthEvents`) are left out.
- `handleLogin`'s asynchronous form flow and the login and dashboard views are left out.
  `SignInThenReload` states the state-level result.
- AdminAuth.AdminAuth.constructor: a stored user that is not readable makes the source's
  `JSON.parse` throw during start-up. The model reports `Unreadable` and stays signed out.
- AdminAuth.GenerateToken: `Math.random()` becomes the parameter `random`, so the model does
  not say that tokens differ between calls.
- `getEditingCouponId`, `getEditingDiscountId` and `getEditingBrokerId` always return `null`
  in the source, so an edit-mode save updates nothing. The model keeps that: the editing id is
  `None`.
- `getRoleDisplay` and `getDefaultCommission` look roles up in object literals. Keys such as
  `"constructor"` or `"__proto__"`, which would find prototype members, are not modelled.
- AdminOrders.Cells: the CSV export does not escape double quotes inside cells. The model
  keeps the cells as they are. `CsvLineCount` assumes cells without newlines, as the source
  does not guard against them.
- The `notes` argument of `updateOrderStatus` is unused by the state change and is left out.
- The `BrokerDashboard.updateCartCount` callbacks and `window.renderCartUI` are left out.
- Cart.Render: a subscriber's exception is recorded as a flag on its delivery (the source
  catches it); what the subscriber does is not modelled.
- CartState.Cart.Add: the source stores `{ id, ...item }` (src/state/cartState.js:14), so an
  item with its own `id` keeps it. The class stores the corrected `FreshLine`, whose id is
  always the clock's. The as-written line is `SpreadLine`; the difference is the first finding.
- CartComponent.ShoppingCart.AddItem: the source's merge keeps the line's old total
  (src/components/cart.js:41). The class uses the corrected, repriced `Added`. The as-written
  list is `AddedAsWritten`, with its count and total lemmas; the difference is the second finding.
- AdminCoupons.CouponManager.SaveCoupon: the source accepts a usage limit of 0
  (js/admin/coupons.js:394). The class validates with the corrected
  `ValidateCouponDataIntended`. The as-written check is `ValidateCouponData`; the difference is
  the third finding.
- CartComponent.ShoppingCart.RemoveItem: with an index past the end, the source's `splice`
  removes nothing, the unchanged list is saved again, and the toast then throws at
  `removedItem.name` (src/components/cart.js:54,59). The model changes nothing in that case
  and does not model the exception.
- CartComponent.ShoppingCart.UpdateItemQuantity: with a positive quantity and an index past the
  end, the source throws at `cartItems[index].quantity = newQuantity`
  (src/components/cart.js:69). The model changes nothing in that case and does not model the
  exception.
- AdminCoupons.CouponManager.SaveCoupon: the save ends with `await this.loadCoupons()` (js/admin/coupons.js:304), which assigns the
  hard-coded sample list again, so in the source the created or edited record does not survive
  the save. The model stops before that reload and states the list the save itself builds.
- AdminDiscounts.DiscountManager.SaveDiscount: the save ends with `await this.loadDiscounts()` (js/admin/discounts.js:285), which assigns the
  hard-coded sample list again, so in the source the created or edited record does not survive
  the save. The model stops before that reload and states the list the save itself builds.
- AdminBrokers.BrokerManager.SaveBroker: the save ends with `await this.loadBrokers()` (js/admin/brokers.js:295), which assigns the
  hard-coded sample list again, so in the source the created or edited record does not survive
  the save. The model stops before that reload and states the list the save itself builds.
- `formatPriceDifference` is modelled through its sign prefix and a formatting parameter for
  the absolute value.

## Findings

| source | as written | input that shows it | evidently intended | confidence | as-written member | corrected member |
|---|---|---|---|---|---|---|
| src/state/cartState.js:14 | `{ id, ...item }` lets the item's own `id` override the clock id | two product cards for the same product added in turn, then `remove` of the second line's id | each added line gets a fresh clock id, so removing one keeps the other | medium, not executed | CartState.SpreadIdRemovesSibling | CartState.FreshIdKeepsSibling |
| src/components/cart.js:41 | a merge adds the quantity but keeps the line's old total | `addItem` of the same one-off item twice: quantity 2, line and cart total for 1 | the line total is repriced to area × price × quantity, as `updateItemQuantity` does | high, not executed | CartComponent.StaleMergeTotal | CartComponent.RepricedMergeTotal |
| js/admin/coupons.js:394 | `data.usageLimit && data.usageLimit <= 0` skips the check when the limit is 0 | a fixed coupon "FREE50" of value 50 with usage limit 0 is accepted | a limit of 0 is rejected with "Usage limit must be greater than 0" | high, not executed | AdminCoupons.ZeroUsageLimitAccepted | AdminCoupons.ValidateCouponDataIntended |
