# FerreJunior shop core in Dafny

FerreJunior is a hardware store web application: a Flask server with a
customer area (catalog, cart, checkout, orders, addresses, profile, support
tickets), an employee area (tasks, deliveries), an administrator area
(products, categories, orders, users) and delivery tracking with
notifications, plus the browser scripts of each page. This project models
the logic of that core and proves what it promises.

- **Money.** Amounts are whole Colombian pesos. `OrderTotals` holds the
  shipping and tax rule in its two versions: the server's (truncated tax,
  shipping also on an empty cart) and the browser's (rounded tax, no shipping
  on an empty cart). `CopFormat` holds `format_cop`, `formatCOP`, `parseCOP`
  and the two rounding rules, with the round trip between server text and
  browser reading.
- **Cart and orders.** `CartLedger` is the stock-reservation ledger of the
  cart routes as pure transitions; `Checkout` is `create_order`;
  `ClientStore.Store` performs both step by step on its tables.
- **Customer records.** `ClientAccount` covers addresses (one default per
  user), ticket messages and the password change.
- **Staff and administration.** `AdminRoutes`, `EmployeeRoutes`,
  `TrackingRoutes` and `NotificationService` are the server routes over
  their tables. Each is a transition returning an HTTP status, and each has
  a class that applies it in place.
- **Records.** `UserModel`, `ProductModel`, `TaskModel` and `CategoryModel`
  are the records' own methods. `Decorators` holds the access checks.
  `MapsConfig` holds the map settings. `MigrateMysql` holds the migration
  script's planning.
- **Browser scripts.** One module per page script: `Catalog`,
  `CheckoutPage`, `ProductDetail`, `AdminDashboard`, `EmployeeDashboard`,
  `EmployeeTracking`, `ClientOrderTracking`, `ClientOrders`,
  `ClientProfile`, `SupportPage`, `AuthLogin` and `ThemeSwitch`. A script
  that keeps page variables becomes a class whose methods reassign them. A
  loop over the page's rows becomes a method with its invariants.
- **Shared helpers.** `Common`, `Text` and `Seqs` hold what every module
  shares.

Some facts of the code shape the model:

- The server and the browser differ on shipping: the server charges 15 000
  on a zero subtotal (`subtotal < 200000`), the browser does not.
- The server and the browser differ on tax: the server truncates the 19 %
  tax, the browser rounds it.
- A lookup with `get_or_404` inside `try ... except Exception` answers an
  unknown id with 500: the handler catches the 404 error.

## Model

| member | source | states |
|---|---|---|
| OrderTotals.TruncDiv | Config/models/order.py:45 | the quotient rounded toward zero: within one divisor of the dividend, from below for non-negative dividends and from above for negative ones |
| OrderTotals.ServerTotals | Config/blueprints/client/routes.py:720-723 | the server's totals: the total is subtotal plus shipping plus tax; shipping is 15 000 exactly below 200 000, zero included; the tax is 19 % of the subtotal truncated to a whole peso |
| OrderTotals.ClientTotals | Config/static/js/checkout.js:150-156 | the browser's totals: shipping is 15 000 exactly on a positive subtotal below 200 000; the tax is within half a peso of 19 % of the subtotal |
| OrderTotals.CheckoutPageAgreesWithCreateOrder | Config/blueprints/client/routes.py:297-303 | the checkout page's `int(subtotal * 0.19) if subtotal else 0` charges the same totals as `create_order` on every subtotal |
| OrderTotals.EmptyCartTotals | Config/models/order.py:44-45 | on an empty cart the server charges 15 000 shipping while the browser shows all zeros |
| OrderTotals.ShippingAgreesIffPositive | Config/static/js/catalog.js:495 | server and browser shipping agree exactly when the subtotal is positive |
| OrderTotals.ClientTaxAtMostOnePesoMore | Config/static/js/catalog.js:496 | on a non-negative subtotal the browser's tax is the server's or one peso more, one more exactly when the dropped hundredths are at least 50 |
| OrderTotals.TotalsAgreeWhenTaxFractionSmall | Config/static/js/product_detail.js:82-84 | server and browser totals coincide on a positive subtotal whose 19 % drops less than half a peso |
| OrderTotals.StatusLabel | Config/models/order.py:53-60 | a Spanish label exists exactly for the five known statuses |
| OrderTotals.Title | Config/models/order.py:60 | `str.title()`: same length; a letter at the start or after a non-letter is upper-cased, after a letter lower-cased |
| OrderTotals.ToDict | Config/models/order.py:33-60 | the item count, the subtotal as the sum of the lines' totals, the server's shipping and tax on it, the stored amount rounded half to even when there is one and the recomputed total otherwise, and the label or the title-cased status |
| OrderTotals.ItemlessOrderReportsShipping | Config/models/order.py:43-44 | an order with no lines reports a zero subtotal and still a 15 000 shipping cost |
| OrderTotals.StoredTotalWins | Config/models/order.py:50 | the reported total is the stored amount whatever the lines add up to, so it matches the recomputed total only when the stored amount does |
| OrderTotals.StatusPredicatesPartition | Config/models/order.py:24-31 | pending, processing and completed never overlap, and a labelled status is one of them or cancelled |
| CopFormat.RoundHalfEven | app.py:66 | Python's `round`: within half of the argument, and on a tie the even neighbour |
| CopFormat.JsRound | Config/static/js/utils.js:12 | `Math.round`: the integer in (x - 1/2, x + 1/2] |
| CopFormat.RoundsFixIntegers | Config/static/js/utils.js:23 | both roundings leave a whole number unchanged |
| CopFormat.Group | app.py:68 | grouping a digit string adds one '.' per full group of three digits after the first |
| CopFormat.FormatCop | app.py:61-71 | `format_cop`: always '$' and at least one more character; "$0" for None or a value `float` refuses; otherwise '$' and the amount rounded half to even, grouped |
| CopFormat.ClientFormatCop | Config/static/js/utils.js:10-15 | `formatCOP`: always '$' and more; "$0" for a falsy amount |
| CopFormat.LeadingDigits | Config/static/js/utils.js:24 | the longest prefix made of digits: a prefix, all digits, followed by a non-digit or the end |
| CopFormat.ParseLeadingInt | Config/static/js/utils.js:24 | `parseFloat` on text without a decimal point is NaN exactly when no digit follows the blanks and the optional sign |
| CopFormat.ParseCop | Config/static/js/utils.js:22-25 | `parseCOP`: a number is rounded; text whose cleaned form reads as NaN gives 0 |
| CopFormat.GroupDropsOnlyDots | app.py:68 | removing '$', '.' and ',' from a grouping gives back exactly the digits |
| CopFormat.GroupShape | app.py:68 | the grouping has a '.' exactly at every fourth position counted from the right |
| CopFormat.GroupFirst | app.py:68 | a grouping starts with a digit |
| CopFormat.ParseSignedDigits | Config/static/js/utils.js:24 | `parseFloat` reads back every integer's decimal text, with its minus sign |
| CopFormat.RoundTrip | Config/static/js/utils.js:22-25 | `parseCOP` of `format_cop(n)` is n for every integer n, negative ones included |
| CopFormat.SeparatorsAreIgnored | Config/static/js/utils.js:24 | every '$', '.' and ',' is discarded before reading, so "$1.234,56" reads as 123456 |
| CopFormat.FormattersAgreeOnWholePesos | app.py:66 | server and browser print a whole amount alike; on 2.5 the server prints $2 and the browser $3 |
| CartLedger.NextGuestId | Config/blueprints/client/routes.py:448 | the guest id is at least 1, above every id in the guest cart, and one more than the largest when there is one |
| CartLedger.Restock | Config/blueprints/client/routes.py:485-486 | only the named product's stock moves, by the given amount; no product appears or disappears |
| CartLedger.CartAddConserves | Config/blueprints/client/routes.py:400-466 | adding to a cart keeps stock plus reserved units constant for every product, whatever the sign of the quantity, and a rejected add changes nothing |
| CartLedger.CartRemoveConserves | Config/blueprints/client/routes.py:471-505 | removing a line gives its whole quantity back to stock: stock plus reserved units stay constant, and a rejected remove changes nothing |
| CartLedger.CartUpdateConserves | Config/blueprints/client/routes.py:509-581 | changing a quantity moves exactly the difference between stock and the line: stock plus reserved units stay constant, and a rejected update changes nothing |
| CartLedger.CartAddKeepsValid | Config/blueprints/client/routes.py:424-439 | after an add, line ids stay distinct and below the next id, one line per user and product, every line total is unit price times quantity, and guest entries stay distinct per id and product |
| CartLedger.CartRemoveKeepsValid | Config/blueprints/client/routes.py:483-496 | a remove keeps the cart invariant above |
| CartLedger.CartUpdateKeepsValid | Config/blueprints/client/routes.py:526-573 | an update keeps the cart invariant above, the line total following the new quantity |
| CartLedger.CartAddOutcome | Config/blueprints/client/routes.py:409-414 | 404 exactly for a missing or inactive product, 400 exactly when its stock is below the quantity; on success the stock drops by the quantity and the product's reservations grow by it |
| CartLedger.CartAddLines | Config/blueprints/client/routes.py:423-455 | a new line snapshots the product's price; a merge keeps the old snapshot and adds the quantity; a guest add merges by product, or appends an id above every id in the cart |
| CartLedger.CartRemoveDeletesOne | Config/blueprints/client/routes.py:476-495 | a successful remove deletes exactly the first line with that id, the others staying in order, and no line with that id is left |
| CartLedger.CartUpdateOutcome | Config/blueprints/client/routes.py:516-538 | 500 exactly for an unknown line id, 403 exactly for another user's line, 400 exactly when a raise needs more than the stock; otherwise the stock moves by the old quantity minus the new one, or by the whole old quantity on a delete |
| CartLedger.UpdateToZeroIsRemove | Config/blueprints/client/routes.py:523-527 | an update to zero or less is the same request as a removal: same status, same tables |
| CartLedger.OrderLines | Config/blueprints/client/routes.py:757-770 | at most one order line per cart line |
| CartLedger.StoredSubtotalMatchesLines | Config/blueprints/client/routes.py:720 | for the corrected order creation: when every line has its product and a non-zero price snapshot, the stored subtotal is the sum of the order lines' totals, one order line per cart line |
| Checkout.OrderNumber | Config/blueprints/client/routes.py:735-737 | an order number is "ORD", then the date, then the suffix's digits |
| Checkout.SuffixHasFourDigits | Config/blueprints/client/routes.py:736 | a suffix drawn from [1000, 9999] always prints as four digits |
| Checkout.OrderNumberInjective | Config/blueprints/client/routes.py:737 | on one date, different suffixes give different order numbers |
| Checkout.CreateOrderRejectsEmptyCart | Config/blueprints/client/routes.py:715-717 | 400 exactly when the user has no cart line, and a failed order changes nothing |
| Checkout.CreateOrderFailsAsWritten | Config/blueprints/client/routes.py:708-800 | as written (the constructor rejects the keywords subtotal, shipping_cost and tax_amount) 500 exactly when the user has a cart line, the tables never change, and every order the corrected creation accepts is refused |
| Checkout.CreateOrderOutcome | Config/blueprints/client/routes.py:709-801 | for the corrected creation: a successful order appends one pending order for the user, with the first drawn number not yet taken, the server's totals of the cart subtotal, the requested payment method (by default 'Tarjeta de crédito') and notes (by default empty) and lines built from the user's cart lines; afterwards the user has no cart line, and no stock, guest cart or line counter moves |
| Checkout.CreateOrderKeepsNumbersDistinct | Config/blueprints/client/routes.py:740-742 | order numbers stay distinct |
| Checkout.CreateOrderKeepsValid | Config/blueprints/client/routes.py:796 | deleting the user's cart lines keeps the cart invariant |
| Checkout.StoredSubtotalIsSumOfLines | Config/blueprints/client/routes.py:720-774 | for the corrected creation: with non-zero price snapshots of existing products, the stored subtotal is the sum of the order lines' totals |
| Checkout.ZeroSnapshotSubtotalDiffers | Config/blueprints/client/routes.py:720-769 | for the corrected creation: a line whose snapshot is 0 is priced at the product's price in the subtotal but at 0 in its order line, so the two disagree |
| ClientStore.Store.constructor | Config/blueprints/client/routes.py:400-410 | a fresh shop holds the catalog, no cart line, no guest entry and no order, and satisfies the cart invariant |
| ClientStore.Store.Add | Config/blueprints/client/routes.py:400-466 | the handler's steps on the tables give exactly the status and tables of `CartLedger.CartAdd`, keep the orders and keep the cart invariant |
| ClientStore.Store.Remove | Config/blueprints/client/routes.py:471-505 | the handler's steps give exactly `CartLedger.CartRemove`, keep the orders and keep the cart invariant |
| ClientStore.Store.Update | Config/blueprints/client/routes.py:509-581 | the handler's steps give exactly `CartLedger.CartUpdate`, keep the orders and keep the cart invariant |
| ClientStore.Store.CreateOrder | Config/blueprints/client/routes.py:709-801 | the handler's steps, with the order built without the rejected keywords, give exactly the corrected `Checkout.CreateOrder`; it answers an order number exactly on success, the number of the order appended last; the cart invariant is kept |
| ClientStore.PlaceOrder | Config/blueprints/client/routes.py:715-796 | the same steps on the tables as values give the corrected `Checkout.CreateOrder`, with the number exactly on success |
| ClientStore.DrawOrderNumber | Config/blueprints/client/routes.py:736-742 | the redraw loop stops at the first draw whose number is free: every earlier draw's number was taken |
| ClientStore.BuildOrderLines | Config/blueprints/client/routes.py:763-774 | the loop over the cart lines builds exactly the order lines of `CartLedger.OrderLines` |
| ClientAccount.ClearDefaults | Config/blueprints/client/routes.py:616-660 | the bulk update keeps every address and its id, and clears the default flag of exactly the user's addresses other than the one kept |
| ClientAccount.ShippingAddressFor | Config/blueprints/client/routes.py:726-732 | there is no shipping address exactly when the user has no address |
| ClientAccount.ClearDefaultsKeeps | Config/blueprints/client/routes.py:616 | clearing defaults keeps at most one default per user and distinct ids |
| ClientAccount.CreateAddressKeepsOneDefault | Config/blueprints/client/routes.py:607-640 | creating an address appends it with a fresh id, keeps one default per user and distinct ids, and a new default leaves the user's other addresses non-default |
| ClientAccount.UpdateAddressKeepsOneDefault | Config/blueprints/client/routes.py:647-677 | updating keeps one default per user and distinct ids, a rejected update changes nothing, and 403 is answered exactly for another user's address |
| ClientAccount.DeleteAddressRule | Config/blueprints/client/routes.py:682-705 | 400 exactly for the user's default address while the user has more than one; a successful delete removes exactly the address with that id; one default per user and distinct ids are kept |
| ClientAccount.DeleteFound | Config/blueprints/client/routes.py:686-698 | the same rule once the address has been found |
| ClientAccount.DefaultAddressIsShipped | Config/blueprints/client/routes.py:727-729 | with one default per user, an order ships to the default address whenever there is one |
| ClientAccount.StatusAfterMessage | Config/blueprints/client/routes.py:1285-1286 | a resolved or closed ticket reopens; any other status is kept |
| ClientAccount.PostMessageOutcome | Config/blueprints/client/routes.py:1234-1295 | 404 exactly when the user owns no ticket with that id, 400 exactly for a blank message, nothing changes on a rejection, and a success appends the stripped message and reopens only that ticket |
| ClientAccount.ReopenIsIdempotent | Config/blueprints/client/routes.py:1285-1286 | reopening twice is reopening once, and never leaves a ticket resolved or closed |
| ClientAccount.ChangePassword | Config/blueprints/client/routes.py:934-947 | the password changes exactly when all three fields are non-empty, the current one is right, the new ones are equal and at least six characters long |
| ClientAccount.MissingFieldComesFirst | Config/blueprints/client/routes.py:934-938 | a missing field is reported before a wrong current password |
| ClientAccount.Account.constructor | Config/blueprints/client/routes.py:607 | an empty address book with the tickets given, satisfying the address invariant |
| ClientAccount.Account.ClearUserDefaults | Config/blueprints/client/routes.py:616 | the row-by-row update leaves exactly `ClearDefaults` of the old book and nothing else changed |
| ClientAccount.Account.AddAddress | Config/blueprints/client/routes.py:607-640 | the handler's steps leave exactly `CreateAddress` of the old book, advance the id counter and keep the invariant |
| ClientAccount.Account.EditAddress | Config/blueprints/client/routes.py:647-677 | the handler's steps give exactly `UpdateAddress` and keep the invariant |
| ClientAccount.Account.RemoveAddress | Config/blueprints/client/routes.py:682-705 | the handler's steps give exactly `DeleteAddress` and keep the invariant |
| ClientAccount.Account.AddMessage | Config/blueprints/client/routes.py:1228-1295 | the handler's steps give exactly `PostMessage`, and the address book is untouched |
| ClientAccount.AddMyTicketMessageOutcome | Config/blueprints/client/routes.py:1052-1097 | replying through `add_my_ticket_message`: 404 exactly when the user owns no ticket with that id, 400 exactly for a missing or empty message, no ticket's status ever changes, and a success appends the message as sent |
| ClientAccount.Account.ReplyToTicket | Config/blueprints/client/routes.py:1052-1097 | the handler's steps give exactly `AddMyTicketMessage`, and the address book is untouched |
| Catalog.Search | Config/static/js/catalog.js:70-80 | an empty query restores every product; otherwise exactly the products whose lower-cased name or description contains the lower-cased query |
| Catalog.BucketsPartitionPrices | Config/static/js/catalog.js:118-128 | every price falls in exactly one of the four price buckets |
| Catalog.CategoryFilterAsWrittenEmpty | Config/static/js/catalog.js:108-113 | as written any checked category empties the list: the page keeps `category_id` as a number or null, the boxes give strings, and `includes` compares without conversion |
| Catalog.FiltersAreOneFilter | Config/static/js/catalog.js:106-137 | with the category test as meant, the three filters in turn keep exactly the products that pass all three, in catalog order |
| Catalog.CheckedCategoryKept | Config/static/js/catalog.js:106-113 | with the test as meant a product whose category box is checked stays listed, where as written the list is empty |
| Catalog.StrLeTotal | Config/static/js/catalog.js:151-152 | any two names are comparable |
| Catalog.StrLeTrans | Config/static/js/catalog.js:151-152 | the name order is transitive |
| Catalog.LeTotal | Config/static/js/catalog.js:149-157 | under every sort key any two products are comparable |
| Catalog.LeTrans | Config/static/js/catalog.js:149-157 | under every sort key the comparator's order is transitive |
| Catalog.SortProducts | Config/static/js/catalog.js:145-158 | sorting the copy gives a rearrangement of the products: the same multiset, the same length |
| Catalog.SortProductsOrdered | Config/static/js/catalog.js:145-158 | the displayed list is ordered by the chosen key |
| Catalog.UnsortedKeepsOrder | Config/static/js/catalog.js:148-155 | with no key, or an unknown one, the list keeps its order |
| Catalog.PageToLoad | Config/static/js/catalog.js:247-256 | "prev" loads the page before when there is one, "next" the page after while below the last known page, a number loads that page, anything else nothing |
| Catalog.PrevNextStayInRange | Config/static/js/catalog.js:248-251 | from a page within range, "prev" and "next" never leave [1, pages] |
| Catalog.TotalsLocal | Config/static/js/catalog.js:466-480 | an empty cart shows all zeros |
| Catalog.TotalsLocalIsClientTotals | Config/static/js/catalog.js:466-500 | the empty-cart branch agrees with the browser's totals of the lines' sum |
| Catalog.BadgeLocal | Config/static/js/catalog.js:530-535 | the badge is shown exactly when the unit count is positive |
| Catalog.BadgeHiddenIffNoUnits | Config/static/js/catalog.js:530-535 | over non-negative quantities the badge is hidden exactly when every quantity is 0 |
| Catalog.QuantityRequest | Config/static/js/catalog.js:340-399 | nothing is sent for an unknown id or a quantity that would go below 0; a DELETE exactly when it reaches 0; a PUT with the new quantity exactly when it stays positive |
| Catalog.AddLocallyRaisesBadge | Config/static/js/catalog.js:318-338 | adding locally raises the badge by exactly one, never duplicates an id's line, and appends a line of one unit for a new id |
| Catalog.CatalogPage.constructor | Config/static/js/catalog.js:17-47 | the loaded products are both the full and the shown list, the cart is empty and no sort is chosen |
| Catalog.CatalogPage.SearchProducts | Config/static/js/catalog.js:70-80 | the shown list becomes `Search` of the full list; nothing else changes |
| Catalog.CatalogPage.ApplyFilters | Config/static/js/catalog.js:106-137 | the shown list becomes the full list filtered with the category test as meant; nothing else changes |
| Catalog.CatalogPage.ShownOrder | Config/static/js/catalog.js:144-158 | the rendered order is a rearrangement of the shown list, ordered by the current key, and no field changes |
| Catalog.CatalogPage.AddToCartLocal | Config/static/js/catalog.js:318-333 | the page's cart becomes `AddedLocally` of the old cart; nothing else changes |
| CheckoutPage.KeepDigits | Config/static/js/checkout.js:128 | the result is no longer than the text and holds only digits |
| CheckoutPage.KeepDigitsAppend | Config/static/js/checkout.js:128 | keeping digits distributes over concatenation |
| CheckoutPage.KeepDigitsOfGroup | Config/static/js/checkout.js:126-128 | stripping the non-digits of a grouped digit string gives the digits back |
| CheckoutPage.KeepDigitsOfTrim | Config/static/js/checkout.js:127-128 | trimming first does not change the digits kept |
| CheckoutPage.UnitPriceText | Config/static/js/checkout.js:120-129 | when the `data-unit-price` attribute is missing, empty or "0", the price is read from the digits of the trimmed price text |
| CheckoutPage.NumberOrZero | Config/static/js/checkout.js:133-137 | text that reads as NaN counts as 0 |
| CheckoutPage.PriceTextReadsBack | Config/static/js/checkout.js:123-133 | without a usable attribute, a price the server printed with `format_cop` reads back as the same number of pesos |
| CheckoutPage.AttributeWins | Config/static/js/checkout.js:120-124 | a usable `data-unit-price` decides the price, whatever the text says |
| CheckoutPage.BannerRule | Config/static/js/checkout.js:217-238 | the free-shipping banner appears only from 200 000 up, if it was there or can be attached; below that it survives exactly when it was there and the subtotal is not positive; it is never shown while shipping is charged |
| CheckoutPage.UpdateTotals | Config/static/js/checkout.js:90-240 | an empty page shows zeros and leaves the banner as it was; otherwise the page shows the browser's totals of the rows' sum, and the banner follows `BannerRule` |
| CheckoutPage.SumRows | Config/static/js/checkout.js:115-145 | the loop over the rows accumulates exactly the sum of each row's unit price times quantity, 0 for a row missing either element |
| CheckoutPage.ReadRow | Config/static/js/checkout.js:116-141 | one pass adds the row's amount |
| CheckoutPage.SubtitleNoun | Config/static/js/checkout.js:256 | the subtitle says "producto", and adds the plural 's' exactly when the count is not 1 |
| CheckoutPage.UpdateCartCount | Config/static/js/checkout.js:242-258 | the count is the sum of the rows' quantities, a missing or unreadable one counting 0, and the subtitle is written for it |
| CheckoutPage.QuantityChange | Config/static/js/checkout.js:1-17 | a PUT always carries a non-negative quantity |
| CheckoutPage.QuantityChangeRule | Config/static/js/checkout.js:3-8 | the new quantity is max(0, current + change); no request exactly when that equals the shown quantity, otherwise a PUT with it |
| CheckoutPage.PutZeroRemovesLine | Config/static/js/checkout.js:19-21 | a PUT of 0 comes from a positive quantity driven to 0 or below, and the server treats it exactly as the removal of the line |
| ProductDetail.UserPayload | Config/blueprints/client/routes.py:354-373 | at most one entry per cart line; lines whose product is gone are skipped |
| ProductDetail.GuestPayload | Config/blueprints/client/routes.py:381-393 | at most one entry per guest entry |
| ProductDetail.MapPayload | Config/static/js/product_detail.js:26-36 | one mapped line per payload entry, each the mapping of its own entry |
| ProductDetail.MappingPrefersSnapshot | Config/static/js/product_detail.js:31-34 | the unit price prefers the `unit_price` snapshot, then `price`, then 0; the total, the quantity and the id are carried over |
| ProductDetail.Sidebar | Config/static/js/product_detail.js:81-84 | the sidebar shows the subtotal, the browser's shipping and the browser's total, the tax counted in the total but not shown |
| ProductDetail.UserAmountsAreLineTotals | Config/static/js/product_detail.js:81 | for a signed-in user the fetched lines' amounts add up to the totals of the order lines `create_order` would build from the same cart |
| ProductDetail.SidebarSubtotalIsOrderSubtotal | Config/static/js/product_detail.js:81 | with products present and non-zero snapshots, the subtotal the sidebar shows is the subtotal `create_order` charges |
| ProductDetail.GuestAmountsUseCurrentPrice | Config/blueprints/client/routes.py:381-393 | for a guest each fetched line is worth the product's current price times its quantity |
| ProductDetail.BadgesAgree | Config/static/js/product_detail.js:163-357 | `updateCartBadge` on the fetched cart and `refreshCartBadge` on the same payload show the same number |
| ProductDetail.MapItems | Config/static/js/product_detail.js:26-36 | the mapping loop builds exactly `MapPayload` of the items |
| ProductDetail.CurrentQuantity | Config/static/js/product_detail.js:108-113 | a line of the fetched cart with a non-zero quantity gives the starting quantity, whatever the page shows |
| ProductDetail.QuantityToPut | Config/static/js/product_detail.js:114-121 | the quantity sent is never negative, and null exactly when the starting quantity is NaN |
| ProductDetail.CartEntryDecides | Config/static/js/product_detail.js:101-121 | with a non-zero cart quantity the request does not depend on the page, and a PUT of 0 is for the server the removal of the line |
| ProductDetail.StepsStayInRange | Config/static/js/product_detail.js:256-275 | the + and - buttons move the value by at most one, never out of [min, max], and leave it unchanged exactly at the bound |
| ProductDetail.DetailPage.constructor | Config/static/js/product_detail.js:256-260 | an empty cart, zero totals, a hidden badge, and the quantity input as given |
| ProductDetail.DetailPage.FetchCart | Config/static/js/product_detail.js:21-46 | the cart becomes the mapped payload, or empty when there is none; nothing else changes |
| ProductDetail.DetailPage.RenderTotals | Config/static/js/product_detail.js:47-92 | an empty cart leaves the totals as they were; otherwise they become the sidebar of the lines' amounts; nothing else changes |
| ProductDetail.DetailPage.UpdateBadge | Config/static/js/product_detail.js:163-176 | the badge shows the units of the fetched cart, and is visible exactly when there are any |
| ProductDetail.DetailPage.RefreshBadge | Config/static/js/product_detail.js:341-357 | the badge shows the units of a fresh payload; a failed request changes nothing |
| ProductDetail.DetailPage.IncreaseQuantity | Config/static/js/product_detail.js:256-264 | the value becomes `Increased` of the old value under the maximum; nothing else changes |
| ProductDetail.DetailPage.DecreaseQuantity | Config/static/js/product_detail.js:266-274 | the value becomes `Decreased` of the old value over the minimum; nothing else changes |
| AdminRoutes.CreateProductRule | Config/blueprints/admin/routes.py:506-545 | a product is created exactly when name, SKU and price are given and the SKU is new; otherwise 400 and nothing changes; the new product is active, takes stock 0 and minimum level 10 when the form leaves them out, and no other table changes |
| AdminRoutes.ZeroPriceRejected | Config/blueprints/admin/routes.py:516-518 | a price of 0 counts as missing: create and update are refused and nothing changes |
| AdminRoutes.CreateProductKeepsValid | Config/blueprints/admin/routes.py:520-523 | creating keeps SKUs, category names and emails unique and ids below the next one |
| AdminRoutes.UpdateProductRule | Config/blueprints/admin/routes.py:548-585 | an update succeeds exactly when the product exists, the required fields are given and no other product has the SKU; it rewrites that product only, its category taken from the form, its active flag kept, and SKUs stay unique |
| AdminRoutes.DeleteProductIsSoft | Config/blueprints/admin/routes.py:588-606 | deleting succeeds exactly for an existing product, keeps the record and clears only its active flag |
| AdminRoutes.UpdateStockRule | Config/blueprints/admin/routes.py:609-634 | 400 exactly for an existing product with the stock missing or negative; success exactly with a non-negative number, and then the stock becomes that value and nothing else changes |
| AdminRoutes.CreateCategoryRule | Config/blueprints/admin/routes.py:666-698 | a category is created exactly when a name is given and not taken; otherwise nothing changes; names stay unique |
| AdminRoutes.UpdateCategoryRule | Config/blueprints/admin/routes.py:701-735 | an update succeeds exactly when the category exists, a new name is given and not another's, and it is not its own parent; the parent becomes the one given; names stay unique |
| AdminRoutes.TwoStepCycleAccepted | Config/blueprints/admin/routes.py:720-721 | only the one-step cycle is refused: with category 1 under 2, making 2 a child of 1 is accepted and leaves a two-step cycle |
| AdminRoutes.DeleteCategoryRule | Config/blueprints/admin/routes.py:738-764 | 400 exactly for a category with a subcategory or a product; otherwise it only loses its active flag |
| AdminRoutes.UpdateOrderStatusRule | Config/blueprints/admin/routes.py:796-821 | the status changes exactly for an existing order and one of the five statuses, so every stored status stays one of the five |
| AdminRoutes.DeleteOrderOnlyPending | Config/blueprints/admin/routes.py:824-842 | an order is deleted exactly when it exists, is pending and no order line, history entry, tracking row or notification points at it, and then only it goes; 400 exactly for an existing order that is not pending; a refusal changes nothing |
| AdminRoutes.UserRoutesKeepEmailsDistinct | Config/blueprints/admin/routes.py:906-1022 | creating, updating and deleting users keep e-mails unique |
| AdminRoutes.DeleteSelfRejected | Config/blueprints/admin/routes.py:1002-1022 | deleting oneself gets 400 whether or not the id exists, and changes nothing; any other existing user no row points at is removed, and one that a cart, address, order, ticket, message, task or notification points at gets 500 with nothing changed |
| AdminRoutes.EmptyPasswordKept | Config/blueprints/admin/routes.py:986-987 | an update with an empty password succeeds and keeps the stored one |
| AdminRoutes.AdminDb.CreateProductRoute | Config/blueprints/admin/routes.py:506-545 | the handler's steps give exactly `CreateProduct` |
| AdminRoutes.AdminDb.UpdateProductRoute | Config/blueprints/admin/routes.py:548-585 | the handler's steps give exactly `UpdateProduct` |
| AdminRoutes.AdminDb.DeleteProductRoute | Config/blueprints/admin/routes.py:588-606 | the handler's steps give exactly `DeleteProduct` |
| AdminRoutes.AdminDb.UpdateProductStockRoute | Config/blueprints/admin/routes.py:609-634 | the handler's steps give exactly `UpdateProductStock` |
| AdminRoutes.AdminDb.CreateCategoryRoute | Config/blueprints/admin/routes.py:666-698 | the handler's steps give exactly `CreateCategory` |
| AdminRoutes.AdminDb.UpdateCategoryRoute | Config/blueprints/admin/routes.py:701-735 | the handler's steps give exactly `UpdateCategory` |
| AdminRoutes.AdminDb.DeleteCategoryRoute | Config/blueprints/admin/routes.py:738-764 | the handler's steps give exactly `DeleteCategory` |
| AdminRoutes.AdminDb.UpdateOrderStatusRoute | Config/blueprints/admin/routes.py:796-821 | the handler's steps give exactly `UpdateOrderStatus` |
| AdminRoutes.AdminDb.DeleteOrderRoute | Config/blueprints/admin/routes.py:824-842 | the handler's steps give exactly `DeleteOrder` |
| AdminRoutes.AdminDb.CreateUserRoute | Config/blueprints/admin/routes.py:906-944 | the handler's steps give exactly `CreateUser` |
| AdminRoutes.AdminDb.UpdateUserRoute | Config/blueprints/admin/routes.py:962-999 | the handler's steps give exactly `UpdateUser` |
| AdminRoutes.AdminDb.DeleteUserRoute | Config/blueprints/admin/routes.py:1002-1022 | the handler's steps give exactly `DeleteUser` |
| UserModel.NewUser | Config/models/user.py:12-14 | a new row is a client, neither employee nor admin, and active, with the given id, e-mail, name and password |
| UserModel.RolesNest | Config/models/user.py:23-30 | every admin counts as an employee, no client is an employee or admin, and the non-admin employees are exactly the role 'empleado' |
| UserModel.ToDict | Config/models/user.py:36-45 | the dictionary carries the id, e-mail and role, and `active` under the key `is_active` |
| UserModel.ToDictHidesOnlyPassword | Config/models/user.py:36-45 | two users serialise identically exactly when they differ at most in their password |
| ProductModel.NewProduct | Config/models/product.py:12-16 | a new row has stock 0, minimum level 10, no category, and is active |
| ProductModel.NewProductIsLowStock | Config/models/product.py:26-28 | a product created without stock is low on stock |
| ProductModel.LowStockThreshold | Config/models/product.py:26-28 | a product stops being low on stock exactly when its stock exceeds the minimum level |
| ProductModel.PriceCop | Config/models/product.py:37 | `price_cop` is within half a peso of the price, 0 when there is none |
| ProductModel.PriceCopOfWholePesos | Config/models/product.py:37 | a whole-peso price is reported unchanged |
| ProductModel.Rating | Config/models/product.py:49 | the rating is never 0: a given non-zero rating is kept, a missing one reads 4.5 |
| ProductModel.Reviews | Config/models/product.py:50 | the review count is 0 exactly when it is missing or 0, and otherwise the stored count |
| TaskModel.NewTask | Config/models/task.py:10-11 | a new task is medium priority, pending, not completed, with the given due date |
| TaskModel.OverdueRule | Config/models/task.py:43-47 | a task is overdue exactly when it has a due date in the past and is not completed, so a cancelled task can be overdue |
| TaskModel.OverdueStaysOverdue | Config/models/task.py:43-47 | an overdue task stays overdue as time passes, until it is completed |
| TaskModel.PriorityColor | Config/models/task.py:49-56 | the fallback grey is returned exactly for an unknown priority |
| TaskModel.StatusColor | Config/models/task.py:58-66 | the fallback grey is returned exactly for an unknown status |
| TaskModel.PalettesAgree | Config/models/task.py:49-66 | low and completed, medium and pending, high and cancelled share a colour, so a new task shows the same colour in both |
| CategoryModel.Parent | Config/models/category.py:27 | a loaded parent exists and is the one `parent_id` names |
| CategoryModel.Chain | Config/models/category.py:36-40 | the chain of ancestor names ends with the category's own name |
| CategoryModel.FullPath | Config/models/category.py:36-40 | a root's path is its name, and every path ends with the category's own name |
| CategoryModel.PathIsJoinedChain | Config/models/category.py:36-40 | the path is the ancestor names from the root down, joined with " > " |
| CategoryModel.SeparatorsCountDepth | Config/models/category.py:36-40 | when no name holds '>', the path holds one '>' per ancestor |
| CategoryModel.SubcategoriesCount | Config/models/category.py:32 | the subcategory count is 0 exactly when no category has this one as parent |
| CategoryModel.ProductsCount | Config/models/category.py:33 | the product count is 0 exactly when no product is filed under this category |
| CategoryModel.DeleteNeedsZeroCounts | Config/blueprints/admin/routes.py:741-764 | the admin route deletes a category exactly when both of its counts are 0 |
| Decorators.AdminRequired | Config/decorators.py:5-16 | anonymous visitors go to the login page; the view is called, with its own arguments, exactly for a signed-in admin; other users go to the index |
| Decorators.EmployeeRequired | Config/decorators.py:18-29 | anonymous visitors go to the login page; the view is called exactly for an admin or an 'empleado'; other users go to the index |
| Decorators.ClientAccess | Config/decorators.py:31-39 | the view is called exactly for a signed-in user; everyone else goes to the login page |
| Decorators.AccessIsNested | Config/decorators.py:5-39 | whoever passes `admin_required` passes `employee_required`, whoever passes that passes `client_access`, and a client passes only the last |
| EmployeeRoutes.StatusCountsPartition | Config/blueprints/employee/routes.py:117-131 | the pending, in-progress and completed counters together with the tasks none of them counts add up to the total |
| EmployeeRoutes.StatsBounded | Config/blueprints/employee/routes.py:117-134 | the three status counters never exceed the total and reach it exactly when no task has another status; the urgent counter never exceeds the total |
| EmployeeRoutes.TasksStats | Config/blueprints/employee/routes.py:117-134 | the counting loop produces the per-status counts, the count of high-priority tasks and the number of tasks |
| EmployeeRoutes.GetTask | Config/blueprints/employee/routes.py:144-156 | a task is returned exactly when it exists and is assigned to the current employee; an unknown id gives 500, another employee's task 403 |
| EmployeeRoutes.UpdateTaskStatusRule | Config/blueprints/employee/routes.py:161-191 | the update succeeds exactly for one's own task and one of the four statuses (403 for another's task); it then changes only that task's status and completion stamp, set on entering 'completed', kept within it, cleared otherwise; a refusal changes nothing |
| EmployeeRoutes.CompleteTaskRule | Config/blueprints/employee/routes.py:200-216 | completing succeeds exactly for one's own task that is not completed yet, stamping it now; completing it again is refused with 400 and changes nothing |
| EmployeeRoutes.CompleteAgreesWithStatusUpdate | Config/blueprints/employee/routes.py:161-216 | when completing succeeds, setting the status to 'completed' gives the same outcome and the same tasks |
| EmployeeRoutes.RoutesKeepStamped | Config/blueprints/employee/routes.py:179-185 | both routes keep the completion stamp present exactly on completed tasks |
| EmployeeRoutes.TaskBoard.constructor | Config/blueprints/employee/routes.py:161-216 | the board holds the given tasks |
| EmployeeRoutes.TaskBoard.UpdateTaskStatusRoute | Config/blueprints/employee/routes.py:161-191 | the handler's steps give exactly the status and tasks of the status-update rule |
| EmployeeRoutes.TaskBoard.CompleteTaskRoute | Config/blueprints/employee/routes.py:200-216 | the handler's steps give exactly the status and tasks of the completion rule |
| EmployeeDashboard.PriorityClass | Config/static/js/employee_dashboard.js:238-245 | 'high' and 'low' have their own class; every other priority is shown as medium |
| EmployeeDashboard.PriorityText | Config/static/js/employee_dashboard.js:247-254 | 'high' and 'low' have their own label; every other priority reads "Media" |
| EmployeeDashboard.StatusText | Config/static/js/employee_dashboard.js:256-263 | 'in_progress' and 'completed' have their own label; every other status reads "Pendiente" |
| EmployeeDashboard.StatusClass | Config/static/js/employee_dashboard.js:265-272 | 'in_progress' and 'completed' have their own class; every other status is shown as pending |
| EmployeeDashboard.LookupsAgree | Config/static/js/employee_dashboard.js:238-272 | a task's class and label always name the same priority and status, and a cancelled task, which the server accepts, is shown as pending |
| EmployeeDashboard.TaskActions | Config/static/js/employee_dashboard.js:274-287 | a completed task shows the completed label, a pending one the start button, an in-progress one the complete button, any other none |
| EmployeeDashboard.StartTask | Config/static/js/employee_dashboard.js:289-296 | the start button sends a status update for that task with a status the server accepts |
| EmployeeDashboard.CompleteTaskRequest | Config/static/js/employee_dashboard.js:311-314 | the complete button posts a completion for that task |
| EmployeeDashboard.ButtonsFollowServer | Config/static/js/employee_dashboard.js:274-314 | on one's own pending task the start request is accepted and the complete button follows; that request is accepted too and the completed label follows, and the server would refuse a second completion |
| AdminDashboard.TitleTable | Config/static/js/admin_dashboard.js:39-54 | every title the breadcrumb table holds is non-empty |
| AdminDashboard.SectionTitle | Config/static/js/admin_dashboard.js:38-56 | a listed section gets its table title; any other keeps its length and every character after the first |
| AdminDashboard.UnlistedSectionTitle | Config/static/js/admin_dashboard.js:38-56 | the title is empty only for the empty name, an unlisted section has its first letter capitalised, and 'low-stock' and 'tasks' read "Stock Bajo" and "Tasks" |
| AdminDashboard.SectionLoader | Config/static/js/admin_dashboard.js:28-35 | only the products and orders sections load their data on display |
| AdminDashboard.BadgeKey | Config/static/js/admin_dashboard.js:479 | the compared badge text is never longer than the badge's text |
| AdminDashboard.RowAfter | Config/static/js/admin_dashboard.js:467-500 | the filter never changes a row's badge, only its display |
| AdminDashboard.FilterRule | Config/static/js/admin_dashboard.js:467-500 | everything shows without a status; a row without a badge keeps its display; 'pending' shows exactly the rows reading "pendiente", 'delivered' exactly those reading "entregado" or "enviado", any other status everything; filtering twice is filtering once |
| AdminDashboard.FilterOrdersByStatus | Config/static/js/admin_dashboard.js:467-500 | after the loop every row of the table is the filtered version of what it was |
| AdminDashboard.LowStockLabel | Config/static/js/admin_dashboard.js:263 | a low-stock row is labelled either "Crítico" or "Bajo" |
| AdminDashboard.CriticalIsLowStock | Config/static/js/admin_dashboard.js:263 | "Crítico" is shown exactly for the products the model's low-stock rule calls low on stock |
| AdminDashboard.AdjustStock | Config/static/js/admin_dashboard.js:962-977 | a stock is sent exactly for a non-empty answer that parses to a number of at least 0, and then that number |
| AdminDashboard.AdjustStockAccepted | Config/static/js/admin_dashboard.js:962-977 | whatever the prompt sends is accepted for an existing product and becomes its stock |
| AdminDashboard.InventoryRequestAsWritten | Config/static/js/admin_dashboard.js:1191-1222 | as written, a request goes out only with a product and a looked-up stock, and it carries a null stock exactly when the quantity does not parse |
| AdminDashboard.InventoryNaNReachesServer | Config/static/js/admin_dashboard.js:1196-1222 | an empty quantity passes the guard, the sum is sent as null, and the server answers 500 without changing anything |
| AdminDashboard.InventoryRequest | Config/static/js/admin_dashboard.js:1191-1222 | corrected: a request goes out exactly for a product, a looked-up stock and a quantity that parses above 0, and it raises the stock |
| AdminDashboard.InventoryRequestAccepted | Config/static/js/admin_dashboard.js:1191-1222 | the corrected form agrees with the written one whenever the quantity parses, and what it sends is accepted and raises the stock by the quantity |
| AdminDashboard.AdjustmentRequestAsWritten | Config/static/js/admin_dashboard.js:1254-1279 | as written, a request goes out exactly with a product, a reason, non-blank notes and a stock that is unparsable or at least 0, and it carries null exactly when the stock does not parse |
| AdminDashboard.AdjustmentNaNReachesServer | Config/static/js/admin_dashboard.js:1259-1279 | an empty new-stock field passes the guard, is sent as null, and the server answers 500 without changing anything |
| AdminDashboard.AdjustmentRequest | Config/static/js/admin_dashboard.js:1254-1279 | corrected: a request goes out exactly with a product, a reason, non-blank notes and a stock that parses to at least 0, and it carries that stock |
| AdminDashboard.AdjustmentRequestAccepted | Config/static/js/admin_dashboard.js:1254-1279 | the corrected form agrees with the written one whenever the stock parses, and what it sends is accepted and becomes the product's stock |
| AdminDashboard.ProductSubmissionOf | Config/static/js/admin_dashboard.js:726-741 | the form edits (PUT) exactly when the hidden id is set; an empty stock reads 0 and an empty minimum 10, otherwise each is what parses; the category is null exactly when empty or unparsable |
| AdminDashboard.ProductFormDefaultsMatchModel | Config/static/js/admin_dashboard.js:737-740 | the form's defaults for empty stock fields are the product model's column defaults |
| ClientProfile.ElapsedSeconds | Config/static/js/client_profile.js:318 | the elapsed seconds are the whole seconds between the two instants, rounded down |
| ClientProfile.AgoBuckets | Config/static/js/client_profile.js:316-334 | under a minute reads "just now"; each other bucket holds the whole number of its unit elapsed, from 1 up to one below the next unit; from a week on the locale date is shown |
| ClientProfile.AgoMonotone | Config/static/js/client_profile.js:316-334 | more elapsed time never falls into a smaller bucket |
| ClientProfile.Counted | Config/static/js/client_profile.js:322-332 | the text names the count and the unit, with a plural "s" exactly when the count is above one |
| ClientProfile.AgoText | Config/static/js/client_profile.js:316-334 | an order older than a week shows its locale date |
| ClientProfile.PluralRule | Config/static/js/client_profile.js:322-332 | a counted text ends in "s" exactly when the count is above one |
| ClientProfile.Recent | Config/static/js/client_profile.js:146 | the recent list is the first five orders, all of them when there are fewer |
| ClientProfile.RecentKeepsFirstFive | Config/static/js/client_profile.js:192 | both lists show the first five orders in the order the server sent them, and nothing else is lost when there are at most five |
| ClientProfile.ActivityTitle | Config/static/js/client_profile.js:201-221 | delivered, shipped and confirmed orders have their own title; every other status reads "Pedido realizado" |
| ClientProfile.ActivityFeed | Config/static/js/client_profile.js:170-240 | one activity per recent order, in order, at most five, each with the title of its status and its age |
| ClientProfile.ProfileView.constructor | Config/static/js/client_profile.js:3 | the page starts with no orders |
| ClientProfile.ProfileView.LoadOrdersData | Config/static/js/client_profile.js:52-76 | a successful answer replaces the orders, a missing list reading as empty; a failure keeps them |
| ClientProfile.ProfileView.RecentOrders | Config/static/js/client_profile.js:137-146 | the orders listed are a prefix of the loaded ones, five when at least five are loaded |
| ClientProfile.StatusColor | Config/static/js/client_profile.js:280-289 | the five known statuses have their colours, pending and shipped sharing amber; every other status is grey |
| ClientProfile.SubmitProfile | Config/static/js/client_profile.js:387-402 | the trimmed name, then the trimmed email, must be non-empty; only then are both sent, trimmed |
| ClientProfile.SentProfileIsTrimmed | Config/static/js/client_profile.js:391-392 | a sent name and e-mail start and end with a non-space character |
| ClientProfile.SubmitPassword | Config/static/js/client_profile.js:451-468 | the form is sent exactly when all three fields are filled, the two new ones match and are at least six UTF-16 code units long (JavaScript's `length`) |
| ClientProfile.PasswordFormMirrorsServer | Config/static/js/client_profile.js:451-468 | the form repeats the password route's checks apart from the current-password one: what it sends the server accepts exactly for the right current password and six characters, which for a password without astral characters is just the right current password, and each refusal of the form is one the server would give too |
| ClientProfile.AstralPasswordRefused | Config/static/js/client_profile.js:465 | a password of three astral characters (six code units) passes the form's length test and is refused as too short by the server, which counts three characters |
| SupportPage.FilterMyTickets | Config/static/js/client_support.js:83-93 | the empty filter lists every ticket; any other lists the tickets with exactly that status |
| SupportPage.FilterMyTicketsRule | Config/static/js/client_support.js:83-93 | a ticket is listed exactly when it was loaded and the filter is empty or names its status |
| SupportPage.Preview | Config/static/js/client_support.js:68 | a message of up to 100 characters is shown whole; a longer one as its first 100 characters followed by "..." |
| SupportPage.PreviewBounds | Config/static/js/client_support.js:68 | a preview is at most 103 characters long, exactly 103 for a long message, and starts with the message itself |
| SupportPage.SenderOf | Config/static/js/client_support.js:207-209 | a message is the customer's exactly when its author owns the ticket; any other author is the employee, named when a name is sent, "Empleado" otherwise |
| SupportPage.ReplyBoxAgainstServer | Config/static/js/client_support.js:221-228 | a resolved ticket offers the reply box, and a reply through the route the page posts to is stored while the ticket stays resolved (the other messages route would reopen it); a closed ticket offers none |
| SupportPage.SubmitNewTicket | Config/static/js/client_support.js:107-118 | a ticket is sent exactly when the trimmed subject, the category, the priority and the trimmed message are all non-empty, and it carries the trimmed texts |
| SupportPage.CategoryLabel | Config/static/js/client_support.js:294-302 | an unknown category is shown as its own key |
| SupportPage.PriorityBadge | Config/static/js/client_support.js:304-312 | the four priorities have their badges; any other priority is shown as its key |
| SupportPage.StatusBadge | Config/static/js/client_support.js:314-322 | the four statuses have their badges; any other status is shown as its key |
| SupportPage.SupportView.constructor | Config/static/js/client_support.js:3-4 | the page starts with no tickets and no open chat |
| SupportPage.SupportView.LoadMyTickets | Config/static/js/client_support.js:12-34 | a successful answer replaces the tickets; a failure keeps them; the open chat is unchanged |
| SupportPage.SupportView.ViewTicketChat | Config/static/js/client_support.js:151-152 | opening a chat records its ticket before anything is fetched |
| SupportPage.SupportView.CloseTicketChat | Config/static/js/client_support.js:245-248 | closing the chat forgets its ticket |
| SupportPage.SupportView.SendClientMessage | Config/static/js/client_support.js:251-263 | a reply goes out exactly for non-blank text with a chat ticket set, to that ticket with the trimmed text, which is never blank |
| SupportPage.NoReplyAfterClose | Config/static/js/client_support.js:245-263 | once the chat is closed no reply is sent, whatever the text |
| AuthLogin.IsValidEmail | Config/static/js/auth_login.js:73-76 | an address is accepted exactly when the pattern matches: a non-empty name, one '@', then a '.' with text on both sides, and no other '@' and no whitespace anywhere |
| AuthLogin.AcceptedEmailShape | Config/static/js/auth_login.js:74 | an accepted address holds exactly one '@' and no whitespace |
| AuthLogin.EmailError | Config/static/js/auth_login.js:23-31 | the e-mail field has no error exactly for an accepted address; an empty one is required, any other rejected one invalid |
| AuthLogin.PasswordError | Config/static/js/auth_login.js:34-42 | the password field has no error exactly from six UTF-16 code units on (so from three characters at the least); an empty one is required, a shorter one too short |
| AuthLogin.SubmitRule | Config/static/js/auth_login.js:15-48 | the form is submitted exactly for an accepted address and a password of at least six UTF-16 code units, and both fields are checked, so two errors can show at once |
| AuthLogin.LoginForm.constructor | Config/static/js/auth_login.js:14-20 | the form starts with no error on either field |
| AuthLogin.LoginForm.RemoveError | Config/static/js/auth_login.js:64-70 | the field loses its invalid mark and the error node right after it, if any; the other field is untouched |
| AuthLogin.LoginForm.ShowError | Config/static/js/auth_login.js:51-61 | the field is marked invalid and shows this one message only, the previous one removed first; the other field is untouched |
| AuthLogin.LoginForm.Report | Config/static/js/auth_login.js:23-42 | a field shows its error when it has one and shows none otherwise |
| AuthLogin.LoginForm.Submit | Config/static/js/auth_login.js:15-48 | after the handler each field shows exactly its own error, and the form goes out exactly when neither has one |
| ThemeSwitch.Toggled | Config/static/js/theme-toggle.js:87 | the button always switches to 'light' or 'dark', to 'dark' exactly from 'light' |
| ThemeSwitch.ToggleTwice | Config/static/js/theme-toggle.js:87 | toggling twice restores 'light' or 'dark', turns any other theme into 'dark', and toggling always changes a light or dark theme |
| ThemeSwitch.InitialTheme | Config/static/js/theme-toggle.js:13-14 | a non-empty stored theme wins; otherwise the system preference decides; the result is never empty |
| ThemeSwitch.MetaColor | Config/static/js/theme-toggle.js:74-84 | the browser bar is dark navy exactly for the dark theme |
| ThemeSwitch.ToggleMessage | Config/static/js/theme-toggle.js:91 | the toast names the dark mode for 'dark' and the light mode otherwise |
| ThemeSwitch.ThemeToggle.constructor | Config/static/js/theme-toggle.js:7-17 | the initial theme is applied, and therefore stored and shown on the page |
| ThemeSwitch.ThemeToggle.ApplyTheme | Config/static/js/theme-toggle.js:54-72 | the theme becomes current, is set on the page and in the browser bar colour, and is stored |
| ThemeSwitch.ThemeToggle.ToggleTheme | Config/static/js/theme-toggle.js:86-92 | the theme becomes the toggled one, applied everywhere, and the toast names it |
| ThemeSwitch.ThemeToggle.SetTheme | Config/static/js/theme-toggle.js:120-127 | only 'light' and 'dark' are accepted and applied; anything else changes nothing |
| ThemeSwitch.ThemeToggle.SystemPreferenceChanged | Config/static/js/theme-toggle.js:23-28 | a change of system preference applies only when no theme is stored, and changes nothing once a theme has been applied |
| ThemeSwitch.ThemeToggle.ResetToSystemPreference | Config/static/js/theme-toggle.js:140-145 | the stored choice is dropped and the system theme is applied, and so stored again |
| ThemeSwitch.ThemeToggle.GetTheme | Config/static/js/theme-toggle.js:130-132 | the current theme |
| ThemeSwitch.ThemeToggle.IsDarkMode | Config/static/js/theme-toggle.js:135-137 | dark mode exactly when the current theme is 'dark' |
| ThemeSwitch.PreferenceIgnoredAfterInit | Config/static/js/theme-toggle.js:23-28 | after construction a change of system preference never changes the theme, because construction stored one |
| ThemeSwitch.ToggleTwiceRestores | Config/static/js/theme-toggle.js:86-92 | two clicks from a light or dark page bring it back to the theme it started with |
| MapsConfig.Trunc | Config/google_maps_config.py:109 | Python's `int()` on a float truncates toward zero: the result is within one of the value, on the side of zero |
| MapsConfig.TruncMonotone | Config/google_maps_config.py:109 | truncation never reverses an order |
| MapsConfig.EtaMinutes | Config/google_maps_config.py:103-111 | the estimate is the whole minutes the distance takes at the given speed (30 km/h by default), truncated, and never less than one; it is one exactly below two minutes |
| MapsConfig.EtaMonotone | Config/google_maps_config.py:103-111 | at a fixed positive speed a longer distance never gives a shorter estimate |
| MapsConfig.DefaultSpeedEta | Config/google_maps_config.py:103-111 | at the default speed the estimate is two minutes per kilometre, rounded down, at least one |
| MapsConfig.NearMeansShortEta | Config/google_maps_config.py:114-116 | a delivery within the 1 km notification distance is at most two minutes away by the default estimate, and a farther one at least two |
| MapsConfig.FormatLatLng | Config/google_maps_config.py:98-100 | the text is the two coordinates joined by one comma |
| MapsConfig.LatLngSplitsAtFirstComma | Config/google_maps_config.py:98-100 | the first comma splits the text back into the two coordinates |
| MapsConfig.IsConfigured | Config/google_maps_config.py:63-65 | the service is configured exactly when the key has a character other than whitespace |
| MapsConfig.DirectionsParamsOf | Config/google_maps_config.py:76-84 | the directions request carries both places and the key, the mode given or driving, and the Spanish language |
| MapsConfig.DistanceMatrixParamsOf | Config/google_maps_config.py:87-95 | the matrix request joins each list of places with a vertical bar, drives, and asks in Spanish |
| MapsConfig.JoinedPlacesSeparators | Config/google_maps_config.py:90-91 | places that hold no vertical bar come out separated by exactly one bar each, so the joined text has one bar fewer than there are places |
| MapsConfig.DirectionsAgreeWithMatrix | Config/google_maps_config.py:76-95 | a one-place matrix asks the same places, mode, key and language as a default directions request |
| MapsConfig.FilledTemplate | Config/google_maps_config.py:53-60 | a filled template is longer than the text before its order number |
| MapsConfig.NotificationMessage | Config/google_maps_config.py:119-122 | an unknown key gives the empty text; 'near_delivery' without minutes raises; any other known key gives its template filled in |
| MapsConfig.MessageNamesOrder | Config/google_maps_config.py:53-60 | every message of a known template names the order as "#" followed by its number |
| TrackingRoutes.StartRule | Config/blueprints/tracking/routes.py:21-97 | 404 exactly for an unknown order, success exactly with a non-empty destination the geocoder places, and a refusal changes nothing; on success the order's row is active and points at the destination, the order is 'in_transit', exactly one entry is appended, the customer is told the order is on its way, and every other row is untouched |
| TrackingRoutes.RestartKeepsPosition | Config/blueprints/tracking/routes.py:52-58 | starting again on an order already tracked keeps the driver's current position |
| TrackingRoutes.UpdateLocationRule | Config/blueprints/tracking/routes.py:103-184 | for the corrected update (notifications stored): an update succeeds exactly on an active row with both coordinates, and a refusal changes nothing; on success it stores the position and the update instant, appends one entry carrying it, keeps the orders, the destination and the active flag, and notifies only for a measured position within the near-delivery distance |
| TrackingRoutes.UpdateLocationEta | Config/blueprints/tracking/routes.py:140-150 | for the corrected update: a measured update leaves an arrival instant at least a minute after the update |
| TrackingRoutes.GetTrackingAsWritten | Config/blueprints/tracking/routes.py:189-227 | as written, tracking is shown exactly to roles spelled 'admin' or 'employee' and to the order's owner |
| TrackingRoutes.GetTracking | Config/blueprints/tracking/routes.py:189-227 | corrected: 404 exactly for an unknown order; tracking is shown exactly to staff, as the access decorators define them, and to the order's owner, and it is marked present exactly while the order's row is active |
| TrackingRoutes.EmployeeLockedOut | Config/blueprints/tracking/routes.py:197-198 | as written, an employee who is not the owner is refused with 403 although the corrected check admits them |
| TrackingRoutes.GetTrackingAgreesOffEmployees | Config/blueprints/tracking/routes.py:197-198 | for everyone who is neither kind of employee the written and the corrected checks agree |
| TrackingRoutes.CompleteAndCancelDeactivate | Config/blueprints/tracking/routes.py:307-370 | completing succeeds exactly for a known order and cancelling exactly for a tracked one; both leave the tracking inactive, so a later position update is refused and no tracking is shown; completing also marks the order delivered, appends one entry and notifies the customer, while cancelling touches neither orders nor history |
| TrackingRoutes.RoutesKeepConsistent | Config/blueprints/tracking/routes.py:21-370 | every route keeps each row tied to a known order, and each active row with a destination |
| TrackingRoutes.TrackingDesk.constructor | Config/blueprints/tracking/routes.py:21-97 | the desk starts with the given orders, no rows and no history |
| TrackingRoutes.TrackingDesk.StartTracking | Config/blueprints/tracking/routes.py:21-97 | the handler's steps give exactly the status, tables and notice of the start rule |
| TrackingRoutes.NearDeliveryLosesPosition | Config/blueprints/tracking/routes.py:152-175 | as written an update that should notify answers 200 but keeps the old position, address and arrival instant, stamps only the update instant, logs the old address beside the new coordinates and notifies nobody; the corrected update stores the position |
| TrackingRoutes.UpdateLocationAsWrittenAgrees | Config/blueprints/tracking/routes.py:103-184 | where no notification is due, the update as written is the corrected one |
| TrackingRoutes.TrackingDesk.UpdateLocationRoute | Config/blueprints/tracking/routes.py:103-184 | the handler's steps, with the notification stored, give exactly the status, tables and notice of the corrected position-update rule |
| TrackingRoutes.TrackingDesk.CompleteDeliveryRoute | Config/blueprints/tracking/routes.py:307-346 | the handler's steps give exactly the status, tables and notice of the completion rule |
| TrackingRoutes.TrackingDesk.CancelTracking | Config/blueprints/tracking/routes.py:352-370 | the handler's steps give exactly the status and tables of the cancellation rule |
| NotificationService.MessageFor | Config/services/notification_service.py:33-40 | a message is stored exactly when the template can be filled, and it is never empty: an unknown template gives a generic line |
| NotificationService.MessageForNamesOrder | Config/services/notification_service.py:33-40 | every stored message names the order as "#" followed by its number |
| NotificationService.GenericNamesOrder | Config/services/notification_service.py:39-40 | the generic line names the order as "#" followed by its number |
| NotificationService.CreateNotificationAsWritten | Config/services/notification_service.py:43-59 | as written, no notification is ever created and the table never changes |
| NotificationService.CreateNotification | Config/services/notification_service.py:17-59 | corrected: nothing is created exactly when 'near_delivery' comes without minutes; otherwise one unread row is appended with the next id, the user, the order, the kind, the instant and a non-empty message |
| NotificationService.NoticesReachCustomer | Config/services/notification_service.py:62-101 | as written a notice of the tracking routes stores nothing; corrected, it stores one unread row for its customer naming the order, raising the customer's unread count by one |
| NotificationService.CreateKeepsValid | Config/services/notification_service.py:17-59 | creating keeps ids increasing and below the next id, and keeps the table chronological when the clock does not run back |
| NotificationService.AppendKeepsValid | Config/services/notification_service.py:51-52 | appending a row that takes the next id, no older than the last row, keeps both invariants |
| NotificationService.Selected | Config/services/notification_service.py:118-121 | only the user's rows are kept, and only unread ones when asked |
| NotificationService.SelectedRule | Config/services/notification_service.py:118-121 | a row is kept exactly when it is in the table, the user's, and unread when asked |
| NotificationService.SelectedChronological | Config/services/notification_service.py:118-125 | keeping rows preserves the table's order |
| NotificationService.UserNotifications | Config/services/notification_service.py:104-131 | the user's selected rows, newest first, at most the limit of them: the i-th listed is the i-th selected counted from the end |
| NotificationService.UserNotificationsRule | Config/services/notification_service.py:104-131 | every listed row is in the table, the user's, unread when asked, and on a chronological table newer rows come first |
| NotificationService.NewestFirst | Config/services/notification_service.py:123-125 | the first row listed is the user's most recent selected row |
| NotificationService.OrderNotifications | Config/services/notification_service.py:134-153 | only rows of the order are listed, never more than the table holds |
| NotificationService.OrderNotificationsRule | Config/services/notification_service.py:145-147 | a row is listed for an order exactly when it is in the table and belongs to that order |
| NotificationService.OrderNotificationsNewestFirst | Config/services/notification_service.py:147 | on a chronological table an order's rows come newest first |
| NotificationService.UnreadCount | Config/services/notification_service.py:213-233 | the unread count is the number of the user's unread rows |
| NotificationService.IndexOf | Config/services/notification_service.py:156-179 | the lookup finds a row with the id, and finds none exactly when no row has it |
| NotificationService.MarkAsRead | Config/services/notification_service.py:156-179 | False and no change exactly for an unknown id |
| NotificationService.MarkAsReadRule | Config/services/notification_service.py:156-179 | on a valid table marking changes only the row with that id, which becomes read, keeps the table valid, and marking again changes nothing |
| NotificationService.MarkReadRoute | Config/blueprints/tracking/routes.py:398-417 | the route succeeds exactly for an existing row of the current user, then marks it read; 404 or 403 change nothing |
| NotificationService.MarkAllAsRead | Config/services/notification_service.py:182-210 | every row keeps its place; exactly the user's unread rows, of the order when one is given, become read |
| NotificationService.MarkAllAsReadCounts | Config/services/notification_service.py:182-210 | without an order the user has nothing unread afterwards; any marking leaves every other user's count as it was and never raises the user's own |
| NotificationService.MarkAllAsReadIdempotent | Config/services/notification_service.py:182-210 | marking everything twice is marking it once |
| NotificationService.DeleteNotification | Config/services/notification_service.py:236-259 | False and no change exactly for an unknown id; otherwise the table is one row shorter |
| NotificationService.DeleteRemovesExactlyOne | Config/services/notification_service.py:236-259 | on a valid table deleting removes exactly the row with that id, keeps every other row and keeps the table valid |
| NotificationService.RemoveOne | Config/services/notification_service.py:236-259 | removing one row of a valid table leaves a valid table without that row's id and with every other row |
| NotificationService.NotificationCenter.constructor | Config/services/notification_service.py:17-59 | the service starts with an empty table |
| NotificationService.NotificationCenter.Create | Config/services/notification_service.py:17-59 | the method gives exactly the row and table of the corrected creation |
| NotificationService.NotificationCenter.Deliver | Config/services/notification_service.py:62-101 | a notice of the tracking routes is always stored, as the corrected creation stores it |
| NotificationService.NotificationCenter.MarkRead | Config/services/notification_service.py:156-179 | the method gives exactly the result and table of marking one row |
| NotificationService.NotificationCenter.MarkAllRead | Config/services/notification_service.py:182-210 | the loop leaves exactly the table of marking all, and reports success |
| NotificationService.NotificationCenter.Delete | Config/services/notification_service.py:236-259 | the method gives exactly the result and table of deleting one row |
| EmployeeTracking.DeliveredOn | Config/static/js/employee_tracking.js:42-50 | the completed-today counter never exceeds the number of delivered orders |
| EmployeeTracking.StatsCountListedOrders | Config/static/js/employee_tracking.js:32-55 | the three counters count only listed orders, each at most once: with the delivered orders of other days they add up to the length of the list |
| EmployeeTracking.TrackingList | Config/static/js/employee_tracking.js:59-75 | the list holds exactly the shipped, in-transit and delivered orders, and is empty exactly when there are none |
| EmployeeTracking.RowActions | Config/static/js/employee_tracking.js:107-125 | a shipped order offers the start button, an order in transit the update and complete buttons, a delivered one the history button |
| EmployeeTracking.ListedRowsHaveActions | Config/static/js/employee_tracking.js:107-125 | every listed row offers an action, and only listed rows do |
| EmployeeTracking.OrderStatusClass | Config/static/js/employee_tracking.js:400-409 | the five known statuses have their badge classes; every other status is grey |
| EmployeeTracking.OrderStatusText | Config/static/js/employee_tracking.js:411-421 | an unknown status is shown as itself; in transit reads "En Camino", shipped "Enviado" |
| EmployeeTracking.VisibleRule | Config/static/js/employee_tracking.js:145-163 | 'all' shows every row; 'active' and 'pending' show a row exactly when its lower-cased badge contains "en camino" and "enviado"; any other filter hides every row |
| EmployeeTracking.FilterFollowsListedStatus | Config/static/js/employee_tracking.js:145-163 | on the listed rows 'active' shows exactly the orders in transit and 'pending' exactly the shipped ones |
| EmployeeTracking.VisibleIgnoresCase | Config/static/js/employee_tracking.js:151 | the letter case of a badge never changes whether it shows |
| EmployeeTracking.FilterTracking | Config/static/js/employee_tracking.js:145-163 | after the loop each row's display is what its badge decides, and nothing else changes |
| EmployeeTracking.ConfirmUpdateLocation | Config/static/js/employee_tracking.js:285-291 | a location goes out exactly when both fields are filled and an order is selected, for that order with the fields as typed |
| EmployeeTracking.TrackingPanel.constructor | Config/static/js/employee_tracking.js:6 | no order is selected at first |
| EmployeeTracking.TrackingPanel.Select | Config/static/js/employee_tracking.js:166-167 | opening either modal selects its order |
| EmployeeTracking.TrackingPanel.Close | Config/static/js/employee_tracking.js:279-282 | closing a modal clears the selection, so no location can be sent |
| EmployeeTracking.TrackingPanel.Confirm | Config/static/js/employee_tracking.js:285-291 | the request sent is the one the confirmation rule gives for the selected order |
| ClientOrderTracking.MinutesTextReadsBack | Config/static/js/client_order_tracking.js:328-336 | below an hour the minutes are shown as they are; from sixty on the text names the whole hours and the minutes left over |
| ClientOrderTracking.UpdateEta | Config/static/js/client_order_tracking.js:316-354 | without estimates or with a zero distance the card reads "No disponible"; otherwise it is marked near exactly below one kilometre |
| ClientOrderTracking.EtaRule | Config/static/js/client_order_tracking.js:316-354 | near exactly below one kilometre, where the distance is shown in metres, and in kilometres with one decimal from one on; whole minutes are shown through the minutes text, and "Calculando..." without them |
| ClientOrderTracking.MetresReadBack | Config/static/js/client_order_tracking.js:342-343 | a near distance of whole metres reads back as those metres |
| ClientOrderTracking.RoutesNeverFillEstimates | Config/static/js/client_order_tracking.js:320 | the tracking routes never write the stored distance estimate the page reads, so starting from none every loaded tracking shows "No disponible" |
| ClientOrderTracking.StatusLabel | Config/static/js/client_order_tracking.js:418-427 | the five known statuses have labels; any other status is shown as itself |
| ClientOrderTracking.TrackingPage.constructor | Config/static/js/client_order_tracking.js:6-14 | the page starts with no markers, no route, no timer, no data and a zero counter |
| ClientOrderTracking.TrackingPage.ClearMapElements | Config/static/js/client_order_tracking.js:212-228 | all three map elements are released and nothing else changes |
| ClientOrderTracking.TrackingPage.StartAutoUpdate | Config/static/js/client_order_tracking.js:452-457 | the new timer becomes the remembered one and joins the running timers, the previous one still running |
| ClientOrderTracking.TrackingPage.StopAutoUpdate | Config/static/js/client_order_tracking.js:462-467 | the remembered timer, if any, stops and is forgotten; nothing else changes |
| ClientOrderTracking.TrackingPage.LoadTrackingData | Config/static/js/client_order_tracking.js:57-89 | without tracking the no-tracking message is shown and the data and counter stay; with it the data is kept, the arrival card follows the arrival rule, and the counter advances |
| ClientOrderTracking.LeakedTimer | Config/static/js/client_order_tracking.js:452-467 | starting the timer twice leaves the first one running with no handle left to stop it |
| ClientOrders.PageWindow | Config/static/js/client_orders.js:167-168 | the numbered pages are consecutive, increasing, within one to the page count and at most two away from the current page, so there are at most five |
| ClientOrders.Bar | Config/static/js/client_orders.js:150-187 | there is no bar exactly when there is at most one page; otherwise the arrows follow the server's previous and next flags and there is one button per page of the window |
| ClientOrders.BarShowsCurrentPage | Config/static/js/client_orders.js:167-172 | for a page within range the current page is among the buttons and is the only active one, the buttons increase, and their number is the size of the window |
| ClientOrders.RenderPagination | Config/static/js/client_orders.js:150-187 | the loop appends exactly the buttons of the bar |
| ClientOrders.CleanedFiltersFromEntries | Config/static/js/client_orders.js:228-232 | every kept filter comes from a form entry with that name and value, and its value is not blank |
| ClientOrders.NonBlankFieldsKept | Config/static/js/client_orders.js:228-232 | every field with a non-blank value becomes a filter, the last entry of a name winning |
| ClientOrders.BlankFieldsDropped | Config/static/js/client_orders.js:228-232 | a field blank in every entry never becomes a filter |
| ClientOrders.CleanFilters | Config/static/js/client_orders.js:225-232 | the submit handler's loop yields exactly the cleaned filters |
| ClientOrders.OrdersQuery | Config/static/js/client_orders.js:26-30 | the query holds the page, the page size ten and every filter, a filter of the same name overriding page or page size |
| ClientOrders.OrdersPage.constructor | Config/static/js/client_orders.js:1-2 | the page starts on page one with no filters |
| ClientOrders.OrdersPage.LoadOrders | Config/static/js/client_orders.js:11-30 | the page and filters are recorded and the query is built from them |
| ClientOrders.OrdersPage.SubmitFilters | Config/static/js/client_orders.js:222-235 | the submit goes back to page one with the cleaned filters, and the query carries them |
| ClientOrders.StatusClass | Config/static/js/client_orders.js:190-199 | shipped orders share the processing class and an unknown status falls back to the pending class |
| MigrateMysql.CreationOrderRespectsDependencies | migrate_to_mysql.py:6-23 | the creation list names each table once, never names SQLite's own sequence table, and lists every table after the tables its comment says it depends on |
| MigrateMysql.ExistingTables | migrate_to_mysql.py:59-60 | the tables found are exactly the listed ones other than sqlite_sequence |
| MigrateMysql.MigrationOrderRule | migrate_to_mysql.py:62-69 | the migration order begins with the creation list restricted to the tables found, in its order, then holds exactly the tables found, each once, and never sqlite_sequence |
| MigrateMysql.MigrationOrderIsPermutation | migrate_to_mysql.py:60-69 | when SQLite lists each table once, the migration order is a rearrangement of the tables found |
| MigrateMysql.BuildMigrationOrder | migrate_to_mysql.py:63-69 | the comprehension followed by the append loop yields the migration order |
| MigrateMysql.DropTables | migrate_to_mysql.py:74-79 | the tables are dropped in exactly the reverse of the migration order |
| MigrateMysql.DropsDependentsFirst | migrate_to_mysql.py:74-79 | dropping last-first an order that creates dependencies first drops every table before the tables it depends on |
| MigrateMysql.MysqlType | migrate_to_mysql.py:94-106 | the first of the known type names found in the upper-cased declared type decides, INT before VARCHAR; an unknown type is kept upper-cased |
| MigrateMysql.PointBecomesInt | migrate_to_mysql.py:94-96 | a column declared as point is migrated as an integer, because INT is found inside POINT |
| MigrateMysql.ColumnDefinitions | migrate_to_mysql.py:92-108 | one definition per column, in order, with the backquoted name and the mapped type |
| MigrateMysql.PlaceholderList | migrate_to_mysql.py:126 | the list holds n copies of the placeholder |
| MigrateMysql.PlaceholdersCount | migrate_to_mysql.py:126 | the joined placeholders hold exactly n percent signs |
| MigrateMysql.InsertMatchesColumns | migrate_to_mysql.py:125-127 | the insert names one column and holds one placeholder for each column of the table |
| MigrateMysql.Listed | migrate_to_mysql.py:63 | a table is in the comprehension exactly when it is both in the creation list and among the tables found |
| MigrateMysql.Reversed | migrate_to_mysql.py:75 | the reversed order has the same length, position i holding the table at the mirrored position |

The page scripts also keep timers. `startAutoUpdate` in
Config/static/js/client_order_tracking.js:452-457 does not clear an earlier
interval before starting a new one. `ClientOrderTracking.LeakedTimer` shows
that a second start leaves the first timer running with no handle to stop it.
The page calls it once on load, so this is recorded here rather than as a
finding.

## Left out

- Floating point: prices, coordinates, distances and speeds are integers or exact reals; `parseFloat`, `toFixed` and JavaScript's float rounding are modelled only through the rounding rules `CopFormat` and `MapsConfig` state.
- `localeCompare` and the stability of the browser's sort: names are compared as character sequences.
- The guest cart is modelled within one session; cookies, session expiry and merging into a user's cart on login are left out.
- Password hashing: whether a password matches its hash is a boolean parameter of the routes that check one.
- Request bodies that are not JSON, and form fields of the wrong type, are not modelled beyond the missing-field cases the routes answer.
- Case folding and whitespace cover ASCII letters and the whitespace characters `Text.IsSpace` lists; Unicode case mapping is left out.
- The clock: every timestamp (creation, delivery, estimated arrival, "time ago") is a parameter.
- `get_route` and `get_tracking_history` of the tracking routes are left out. They repeat the role check of `get_tracking` (the first finding applies to them too). Beyond it they only ask the map service for a route or list the stored status history.
- The map service, geolocation, timers, the DOM, toasts, confirmation dialogs and locale date formatting: these are browser or external calls. The model keeps only the values the scripts compute from their answers.
- The MySQL and SQLite connections, the SQL text they run and the copied rows: `MigrateMysql` models only the planning of the migration.
- NotificationService: a negative `limit` is passed to the SQL `LIMIT` clause and is the database's to interpret (SQLite reads it as no limit); the model takes the newest notifications up to a natural number.
- NotificationService: notifications created at the same instant are ordered by their position, which the database does not guarantee.
- ThemeSwitch: the toggle button, its icon, the `themeChanged` event and the toast are left out; the toast text is a function.
- ClientProfile: the dashboard statistics and the address cards of the profile page only display server data and are left out.
- AuthLogin.LoginForm: only the feedback nodes right after each field are modelled, not the rest of the DOM.
- EmployeeTracking: the near-delivery class that a row keeps once it is added, and rows without a status badge in `filterTracking`, are not modelled.
- ClientOrderTracking.TrackingPage: markers and the route line are handles that are released or not; their drawing is left out.
- AdminDashboard.AdjustStock: the answer is read with `CopFormat.ParseLeadingInt`, so a `0x` prefix, which `parseInt` without a radix reads as hexadecimal (`"0x10"` is 16), is read as 0 here; the stock sent for such an answer is not modelled.
- SupportPage.Preview: the page's `length > 100` test and `substring(0, 100)` count UTF-16 code units and can cut an astral character in half, which a Dafny string cannot hold; the model counts characters, so `SupportPage.Preview` and the 100/103 bounds of `SupportPage.PreviewBounds` are in characters and agree with the page only for messages without astral characters.
- CopFormat.ParseLeadingInt: like `CopFormat.ParseCop` and `CheckoutPage.NumberOrZero`, it reads a sign and digits only; the exponent (`"1e3"` is 1000 to `parseFloat`) and `Infinity` that `parseFloat` also reads are not modelled.
- ClientAccount: `updated_at`, which both ticket-message routes stamp, is not modelled.
- Checkout.CreateOrder: a `payment_method` or `notes` key sent as JSON null is stored as null by the source; the model treats it as the key being absent.
- AdminRoutes: which rows point at an order or a user is given as the sets `heldOrders` and `heldUsers` rather than read from the other tables; the columns the ORM may set to null on a delete (a task's or ticket's assignee, a history entry's author) are not modelled.
- Integer width: JavaScript numbers and Python integers are taken as unbounded, so integers beyond 2^53 in the browser are not modelled.

## Findings

| source | as written | input that shows it | evidently intended | confidence | as-written member | corrected member |
|---|---|---|---|---|---|---|
| Config/blueprints/tracking/routes.py:197 | staff are recognised by the role names admin and employee, but employees hold the role empleado | an employee who does not own order 1 asks for its tracking and is refused with 403, although that employee may start and update its delivery | staff recognised by the same role check as the access decorators | high, not executed | TrackingRoutes.GetTrackingAsWritten | TrackingRoutes.GetTracking |
| Config/services/notification_service.py:43-49 | the notification row is built with the keyword notification_type, which is not a column of the model | any call, such as notifying that order 1 is out for delivery: the constructor raises, the handler rolls back and nothing is stored | the kind stored in the type column, so each notice reaches its customer | high, not executed | NotificationService.CreateNotificationAsWritten | NotificationService.CreateNotification |
| Config/blueprints/client/routes.py:745-756 | the order is built with the keywords subtotal, shipping_cost and tax_amount, which are not columns of the order model | any user with one cart line places an order: the constructor raises, the handler rolls back and answers 500, so no order can ever be placed | the order built from its columns only (total, address, payment method, notes), so the cart becomes an order | high, not executed | Checkout.CreateOrderFailsAsWritten | Checkout.CreateOrderOutcome |
| Config/blueprints/tracking/routes.py:152-175 | the near-delivery notification is sent before the handler's commit, and the failing notification (the row above) rolls the session back | an active row with destination coordinates and a reading of 0.5 km for an existing order: the answer is 200 but the row keeps its old position, address and arrival instant, and the history entry carries the old address | the new position stored whether or not the notification succeeds | high, not executed | TrackingRoutes.NearDeliveryLosesPosition | TrackingRoutes.UpdateLocationRule |
| Config/static/js/catalog.js:29 | the page keeps `category_id` (a number, or null) while the category boxes give string ids, and `includes` compares without conversion | any product list with the "herramientas" box checked: the filtered list is empty | a product kept when its category's box is checked | high, not executed | Catalog.CategoryFilterAsWrittenEmpty | Catalog.CheckedCategoryKept |
| Config/static/js/admin_dashboard.js:1196-1198 | the guard quantity <= 0 is false for NaN | an empty quantity for product 7: the request carries a null stock and the server answers 500 | an unparsable quantity stopped like a non-positive one | high, not executed | AdminDashboard.InventoryRequestAsWritten | AdminDashboard.InventoryRequest |
| Config/static/js/admin_dashboard.js:1259-1261 | the guard newStock < 0 is false for NaN | an empty new stock for product 7 with a reason and notes: the request carries a null stock and the server answers 500 | an unparsable stock stopped like a negative one | high, not executed | AdminDashboard.AdjustmentRequestAsWritten | AdminDashboard.AdjustmentRequest |
