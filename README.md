# Storefront rules, modelled in Dafny

This project models the decision logic of a React storefront and its admin console.
It covers the customer side: shop catalogue, product page, cart, checkout, order history and order page, profile, registration and login.
It also covers the admin side: product form, order list, order page, product and user lists, and navigation.
The model follows the source file by file. Each core file becomes one module:

- `CartSlice` (`src/slices/cartSlice.js`): the cart store. It is a class whose line list and running totals the reducers update in place. Every reducer is proved against a pure function on the line list, and the totals invariant is kept by all of them.
- `Checkout` (`src/pages/Checkout.jsx`): pricing, loyalty-point redemption, the form validator, the discount code and the order request.
- `ProductDetails`, `CartPage`, `OrderDetails`, `AdminOrderDetails`, `OrderHistory`, `Profile`, `Register`, `Login` and `Home`: the page of the same name.
- `Shop` (`src/pages/Shop.jsx`): the filter, sort and paginate pipeline and the page's form state. `ShopOrder` holds the sort orders and an insertion sort proved to be a sorted permutation.
- `ProductForm` (`src/admin/components/Products/ProductForm.jsx`): variant editing, the per-category variant tables, submit validation and image previews.
- `AdminOrders`, `AdminProducts`, `AdminUsers`, `AdminNav`, `AdminLayout`: the admin pages and components of the same name.
- `AddressManagement` (`src/components/Profile/AddressManagement.jsx`): the address form.
- `ImageUtils`, `ProductUtils`, `Api`, `ProtectedRoute`, `UseGetData`: the utility, service, router and hook files of those names.
- `Common`: Option and Result, JavaScript truthiness, `trim`, `slice`, `startsWith`, `includes`, `split('/').pop()`, order-preserving filters and subsequences.
- `Forms`: the phone and e-mail regular expressions, written as scanning checks. The e-mail check is proved equal to a declarative reading of its pattern.

Where a page keeps React state that its handlers change, the model is a class. Its fields are that state, and its methods are the handlers, with `modifies` clauses. Each handler's new state is tied to a pure function, and the properties are lemmas about those functions. Pure helpers (`calculateTotals`, the colour maps, `processImageUrl`, the title chain) are functions with named results and lemmas.

Conventions:

- Money is an exact `real`.
- A JavaScript value that may be `null` or `undefined` is an `Option`. `Truthy` is JavaScript truthiness for optional strings: `None` and `""` are falsy.
- Calls the model cannot see become parameters:
  - `JSON.parse` is a `parse` function returning a decoded shape or a parse error.
  - `parseFloat` is a `parse` function to `real`.
  - `Date.now()` is a `now` argument.
  - A server answer is an input datatype.

## Model

| member | source | states |
|---|---|---|
| Common.LastSegment | src/custom-hooks/useGetData.js:20 | `split('/').pop()`: a suffix of the path holding no '/' |
| Common.LastSegmentOfJoin | src/admin/components/AdminLayout.jsx:9 | the last segment of a path ending in "/" and a slash-free text is that text |
| Common.TrimEmptyIffBlank | src/pages/Checkout.jsx:164 | `trim()` gives "" exactly when the text is all white space |
| CartSlice.ActionKey | src/slices/cartSlice.js:145-146 | the line identity a delete, increment or decrement names: the product id, with a missing or zero variant id read as 'default' |
| CartSlice.FindIndex | src/slices/cartSlice.js:113-118 | the first line with the identity, or -1 exactly when no line has it |
| CartSlice.AddQuantity | src/slices/cartSlice.js:122-125 | `quantity` or 1: never 0, and a non-zero quantity is kept |
| CartSlice.FixImgUrl | src/slices/cartSlice.js:102-105 | a truthy image URL that does not start with "http" gets the server origin put in front; any other is left as it is |
| CartSlice.ComputeTotals | src/slices/cartSlice.js:132-140 | the two `reduce` loops compute the sum of the quantities and the sum of price times quantity over the lines |
| CartSlice.TotalQuantity | src/slices/cartSlice.js:132-135 | the sum of the line quantities: 0 for no lines, the line's quantity for one line |
| CartSlice.TotalAmount | src/slices/cartSlice.js:137-140 | the sum of price times quantity over the lines: 0 for no lines, the line's amount for one line |
| CartSlice.TotalsLowerBounds | src/slices/cartSlice.js:132-140 | lines of at least one unit each make at least one unit per line; no negative price or quantity makes an amount that is not negative |
| CartSlice.TotalsOfConcat | src/slices/cartSlice.js:132-140 | the totals of two lists of lines joined are the sums of their totals |
| CartSlice.AddLineExisting | src/slices/cartSlice.js:120-122 | adding an identity already in the cart raises that line's quantity by the payload quantity (or 1) and changes no other line nor the length |
| CartSlice.AddLineNew | src/slices/cartSlice.js:123-129 | adding a new identity appends exactly one line, with the quantity defaulted to 1, and keeps the earlier lines |
| CartSlice.AddLineKeepsUnique | src/slices/cartSlice.js:109-129 | adding keeps line identities unique |
| CartSlice.AddLineKeepsPositions | src/slices/cartSlice.js:113-129 | every identity in the cart before an add is found at the same place after it |
| CartSlice.RepeatedAddsMerge | src/slices/cartSlice.js:98-129 | adding one product and variant repeatedly gives a single line whose quantity is the sum of the added quantities |
| CartSlice.RemoveAt | src/slices/cartSlice.js:163 | `splice(idx, 1)`: one line shorter, the lines before kept, the lines after moved down by one |
| CartSlice.TotalsAfterRemove | src/slices/cartSlice.js:155-163 | removing a line takes exactly its quantity and its amount off the totals |
| CartSlice.TotalsAfterQuantityChange | src/slices/cartSlice.js:178-197 | changing one line's quantity by a delta moves the total quantity by the delta and the amount by the delta times the price |
| CartSlice.RemoveKeepsUnique | src/slices/cartSlice.js:155-163 | after removing a line of a cart with unique identities, no line has that identity and identities stay unique |
| CartSlice.RejectionMessage | src/slices/cartSlice.js:221-307 | a rejected operation shows the payload message, or the operation's own default message; never an empty one |
| CartSlice.CartStore.constructor | src/slices/cartSlice.js:85-92 | the empty cart: no lines, zero totals, not loading, no error, no cart id; its totals are consistent |
| CartSlice.CartStore.AddItem | src/slices/cartSlice.js:98-141 | the lines become the merged lines and the totals are recomputed, so they agree with the lines; unique identities stay unique |
| CartSlice.CartStore.DeleteCartItem | src/slices/cartSlice.js:144-165 | the matching line is removed and its quantity and amount are taken off the totals; nothing changes without a match; consistent totals stay consistent |
| CartSlice.CartStore.IncrementItemQuantity | src/slices/cartSlice.js:169-183 | the matching line gains one unit, and the totals gain one unit and the line's price; consistent totals stay consistent |
| CartSlice.CartStore.DecrementItemQuantity | src/slices/cartSlice.js:185-199 | the matching line loses one unit only while it has more than one, so a quantity never drops below 1; consistent totals stay consistent |
| CartSlice.CartStore.ClearCartLocal | src/slices/cartSlice.js:201-205 | no lines and zero totals, the other fields kept |
| CartSlice.CartStore.Pending | src/slices/cartSlice.js:210-213 | loading with the error cleared, and the cart untouched |
| CartSlice.CartStore.Rejected | src/slices/cartSlice.js:239-243 | not loading and the operation's message shown; the lines and totals are kept, so a failed login sync leaves the local cart as it was |
| CartSlice.CartStore.ServerCartLoaded | src/slices/cartSlice.js:214-220 | the server's lines, totals and cart id replace the local ones wholesale |
| CartSlice.CartStore.ServerCartUpdated | src/slices/cartSlice.js:266-271 | the server's lines and totals replace the local ones and the cart id is kept |
| CartSlice.CartStore.SyncFulfilled | src/slices/cartSlice.js:231-238 | a returned cart replaces the lines and totals, missing fields read as empty or zero; no cart leaves them alone |
| CartSlice.CartStore.ClearCartFulfilled | src/slices/cartSlice.js:298-303 | no lines and zero totals, consistent |
| Checkout.CalculateTotals | src/pages/Checkout.jsx:252-258 | the subtotal is the cart total (0 when absent), shipping is 10, the code discount is that percentage of the subtotal, the points discount is one unit per 100 points in use (0 when not in use), and the total is subtotal plus shipping minus both |
| Checkout.TotalFormula | src/pages/Checkout.jsx:252-257 | for every input, total = subtotal + 10 − subtotal × discount / 100 − (points used / 100 when in use) |
| Checkout.TotalWithCodeAndPoints | src/pages/Checkout.jsx:252-258 | with the 15% code and redeemed points the total is 85% of the subtotal plus 10 minus one unit per hundred points |
| Checkout.DiscountsNeverRaiseTotal | src/pages/Checkout.jsx:252-258 | for non-negative amounts the total never exceeds subtotal plus shipping, and it is the undiscounted total less the two discounts |
| Checkout.UsablePoints | src/pages/Checkout.jsx:784-785 | the largest multiple of 100 not above the balance; at least 100 for a balance of 100 or more |
| Checkout.RedeemedDiscountIsWholeUnits | src/pages/Checkout.jsx:256 | the points discount after opting in is a whole number of units, at least one, worth no more than the balance |
| Checkout.ExpectedErrors | src/pages/Checkout.jsx:161-188 | the errors object holds, field by field, the message the validator leaves on it |
| Checkout.ExpectedError | src/pages/Checkout.jsx:161-188 | a blank field always has an error, except the e-mail of a signed-in user, which never has one; a required message only on a blank field; the format messages only for a phone or a guest's e-mail that fails its pattern |
| Checkout.ExpectedErrorsFieldByField | src/pages/Checkout.jsx:161-188 | the expected errors are, field by field, what the required pass followed by the phone and guest e-mail format passes leaves |
| Checkout.CompleteFormHasNoError | src/pages/Checkout.jsx:161-188 | a form with every required field non-blank, a phone of the accepted shape and, for a guest, an e-mail of the x@y.z shape leaves no error on any field |
| Checkout.IncompleteFormHasError | src/pages/Checkout.jsx:161-188 | any other form leaves an error on some field, which the lemma names |
| Checkout.RequiredChecks | src/pages/Checkout.jsx:164-171 | one "required" message per blank field, the e-mail only for a guest |
| Checkout.ValidateForm | src/pages/Checkout.jsx:161-192 | the errors are the expected ones (the format checks overriding the required ones) and the form passes exactly when there is none |
| Checkout.FormAcceptedIff | src/pages/Checkout.jsx:161-192 | the form has no error exactly when name, address, city and postal code are non-blank, the phone has the accepted shape and a guest's e-mail has the e-mail shape |
| Checkout.CheckoutState.constructor | src/pages/Checkout.jsx:37-46 | no code, no discount, no points, redemption off |
| Checkout.CheckoutState.ToggleLoyalty | src/pages/Checkout.jsx:776-791 | opting in below 100 points is refused and changes nothing; opting in otherwise uses the largest whole hundred; opting out uses none; the state stays consistent |
| Checkout.CheckoutState.BalanceChanged | src/pages/Checkout.jsx:243-249 | a balance under 100 switches redemption off; a larger one leaves it as it was |
| Checkout.CheckoutState.VerifyDiscountCode | src/pages/Checkout.jsx:212-232 | an empty code changes nothing; any other code grants 15% |
| Checkout.ToOrderLine | src/pages/Checkout.jsx:285-290 | an order line keeps quantity and price and takes `productId` or else `id`, and `variantId` or else the variant's id or null |
| Checkout.OrderLines | src/pages/Checkout.jsx:285-290 | one order line per cart line, in order |
| Checkout.OrderLinesKeepAmount | src/pages/Checkout.jsx:285-290 | the order lines carry exactly the cart's total amount |
| Checkout.OrderDiscountCode | src/pages/Checkout.jsx:308 | the code is sent exactly when a discount is in force |
| Checkout.HandleSubmit | src/pages/Checkout.jsx:271-341 | an invalid form sends nothing and shows its errors; a valid one sends the cart's lines, the form, the code and the points flag; the cart is cleared exactly when the order is placed; a refusal shows the server's message or "Failed to place order"; a thrown request shows its message or "An unknown error occurred" |
| Forms.PhoneValidLength | src/pages/Checkout.jsx:174-179 | a phone the test accepts has, once white space is removed, 10 to 16 characters, all of the class `[0-9\s-()]` after the first |
| Forms.PhoneValidNotBlank | src/components/Profile/AddressManagement.jsx:78 | a phone the format test accepts is never blank, so the format message replaces the required one only on non-blank input |
| Forms.EmailShapeIffPattern | src/pages/Checkout.jsx:182-187 | the scanning e-mail check accepts exactly the strings `^[^\s@]+@[^\s@]+\.[^\s@]+$` describes |
| Forms.EmailShapeHasOneAt | src/pages/Profile.jsx:85 | an accepted e-mail address holds exactly one '@' and no white space |
| Forms.EmailShapeNotBlank | src/pages/Profile.jsx:85 | an accepted e-mail address is never blank |
| ImageUtils.CollapseSlashes | src/utils/imageUtils.js:11 | `replace(/\/+/g, '/')` never lengthens the text, keeps its first character and leaves no two '/' in a row |
| ImageUtils.CollapseSlashesIdempotent | src/utils/imageUtils.js:11 | collapsing runs of '/' twice gives the same as once |
| ImageUtils.CollapseSlashesFixpoint | src/utils/imageUtils.js:11 | a text without two '/' in a row is left exactly as it is |
| ImageUtils.CollapseSlashesMerge | src/utils/imageUtils.js:11 | a run of two '/' between any two texts collapses exactly as one '/' does, so only the runs change and the text around them survives |
| ImageUtils.ProcessImageUrl | src/utils/imageUtils.js:1-16 | missing, empty or "null" gives the placeholder; a full URL or an uploads path is kept; a '/products/' path moves under '/uploads'; any other path goes under '/uploads/products/' |
| ImageUtils.ProductsPathMovedToUploads | src/utils/imageUtils.js:9-12 | a '/products/' path becomes exactly '/uploads/products' followed by the rest of the path from its ninth character with runs of '/' collapsed, so it starts with '/uploads/products/' and has no run of '/' |
| ImageUtils.ProductsFileMovedToUploads | src/utils/imageUtils.js:9-12 | a '/products/' path whose next character is not '/' becomes exactly '/uploads/products/' followed by the file part with runs of '/' collapsed |
| ImageUtils.OtherPathUnderProducts | src/utils/imageUtils.js:14-15 | any other relative path is put under '/uploads/products/' with one leading '/' removed |
| ImageUtils.ProcessImageUrlShape | src/utils/imageUtils.js:1-16 | every result is the placeholder, a full URL or a path under '/uploads/' |
| ImageUtils.ProcessImageUrlStable | src/utils/imageUtils.js:1-16 | processing a processed URL again changes nothing, unless the URL is the placeholder |
| ImageUtils.PlaceholderNotStable | src/utils/imageUtils.js:2-15 | the placeholder itself is processed to '/uploads/products/placeholder.png', so processing is not idempotent on it |
| ImageUtils.BareFileMoved | src/utils/imageUtils.js:14-15 | a path of one '/' and a name not starting 'u' and not starting with 'p' and 'r' is taken for a bare file name: exactly '/uploads/products/' followed by the name |
| ImageUtils.GetImageUrl | src/utils/imageUtils.js:18-47 | an absent or empty field gives the placeholder; a list gives its first entry processed; text starting with '[' is read as a JSON list when it parses, else used as it is; any other text is processed |
| ImageUtils.GetImageUrlShape | src/utils/imageUtils.js:18-47 | whatever the stored form, the image shown is the placeholder, a full URL or an uploads path |
| ProductUtils.HasProductVariants | src/utils/productUtils.js:2-8 | true exactly when the product exists and one of its two variant lists is present and non-empty |
| ProductForm.TableFor | src/admin/components/Products/ProductForm.jsx:183-324 | each category's default table has two or three rows, the first without surcharge, surcharges strictly rising and stock positive; an unknown category gets the default table |
| ProductForm.Instantiate | src/admin/components/Products/ProductForm.jsx:183-324 | the table's rows in order, the i-th with id `Date.now() + i` |
| ProductForm.GeneratedVariantsShape | src/admin/components/Products/ProductForm.jsx:183-324 | a generated list has at least two variants with distinct ids, the first the base variant with id `Date.now()` and no surcharge |
| ProductForm.FromDraft | src/admin/components/Products/ProductForm.jsx:159 | the appended variant is the draft with the new id |
| ProductForm.WithoutId | src/admin/components/Products/ProductForm.jsx:169-171 | a variant stays exactly when it was there and its id differs from the removed one |
| ProductForm.WithoutIdKeepsOrder | src/admin/components/Products/ProductForm.jsx:169-171 | removal keeps the remaining variants in their order |
| ProductForm.RemoveUndoesAdd | src/admin/components/Products/ProductForm.jsx:153-171 | removing a variant just added under a fresh id gives back the list before the add |
| ProductForm.SubmitError | src/admin/components/Products/ProductForm.jsx:329-343 | the form is sent exactly when name, category and price are filled and there is a variant; a missing field is reported before a missing variant |
| ProductForm.ProductFormState.constructor | src/admin/components/Products/ProductForm.jsx:14-36 | an empty form with no variants and an empty draft |
| ProductForm.ProductFormState.HandleVariantChange | src/admin/components/Products/ProductForm.jsx:144-150 | only the named draft field changes; price and stock are parsed as numbers, name and description kept as text |
| ProductForm.ProductFormState.AddVariant | src/admin/components/Products/ProductForm.jsx:153-166 | an unnamed draft is refused and nothing changes; otherwise the draft is appended with the given id and the draft is reset |
| ProductForm.ProductFormState.RemoveVariant | src/admin/components/Products/ProductForm.jsx:169-171 | the variants become those without the id; nothing else changes |
| ProductForm.ProductFormState.GenerateDefaultVariants | src/admin/components/Products/ProductForm.jsx:174-327 | refused without a category; otherwise the variants are replaced by the category's table with fresh ids |
| ProductForm.ProductFormState.HandleSubmit | src/admin/components/Products/ProductForm.jsx:329-343 | the submit answer is the error the checks give for the current form, and the form is sent exactly when there is none |
| ProductForm.PreviewOf | src/admin/components/Products/ProductForm.jsx:93-102 | an empty image gives "" (later dropped); a full URL or uploads path is kept; any other name goes under '/uploads/products/' |
| ProductForm.PreviewOfShape | src/admin/components/Products/ProductForm.jsx:93-102 | a non-empty preview is a full URL or a path under '/uploads/' |
| ProductForm.PreviewImages | src/admin/components/Products/ProductForm.jsx:67-89 | a plain text is one image; text starting with '[' is the parsed list, or the text itself when it does not parse; a list is taken as it is |
| ProductForm.ImagePreviews | src/admin/components/Products/ProductForm.jsx:65-103 | previews are set exactly when the product has a truthy image field |
| ProductForm.PreviewsShape | src/admin/components/Products/ProductForm.jsx:93-103 | every preview is a full URL or a path under '/uploads/' |
| ProductForm.PreviewsKeepTruthy | src/admin/components/Products/ProductForm.jsx:93-103 | there is one preview per truthy image: nothing non-empty is dropped |
| ProductForm.PreviewAgreesWithProcessImageUrl | src/admin/components/Products/ProductForm.jsx:97-98 | for a bare file name the preview is the path `processImageUrl` gives |
| OrderDetails.Amount | src/pages/OrderDetails.jsx:106 | a missing amount counts as 0, a present one as itself |
| OrderDetails.ItemsSubtotalOfConcat | src/pages/OrderDetails.jsx:105-108 | the subtotal of two lists joined is the sum of their subtotals |
| OrderDetails.ItemsSubtotal | src/pages/OrderDetails.jsx:105-108 | the `reduce` over the line totals: 0 when no line has a total, the line's total (or 0) for one line |
| OrderDetails.ItemsSubtotalBoundsLine | src/pages/OrderDetails.jsx:105-108 | with no negative line totals the subtotal is at least every line's total |
| OrderDetails.ItemsSubtotalNonNegative | src/pages/OrderDetails.jsx:105-108 | with no negative line totals the subtotal is not negative |
| OrderDetails.Subtotal | src/pages/OrderDetails.jsx:105-108 | absent exactly when the order has no item list; 0 for an empty list |
| OrderDetails.LoyaltyPointsDiscount | src/pages/OrderDetails.jsx:110 | one currency unit per hundred points used, 0 when none are recorded |
| OrderDetails.GrandTotal | src/pages/OrderDetails.jsx:105-113 | absent exactly when the order has no item list |
| OrderDetails.GrandTotalAgainstStoredTotal | src/pages/OrderDetails.jsx:109-113 | for an order priced as checkout prices it, the page's grand total is the stored total plus the code discount, since the page always shows a discount of 0; without a code discount the two agree |
| OrderDetails.GrandTotalAddLine | src/pages/OrderDetails.jsx:105-113 | one more line raises the grand total by exactly that line's total |
| OrderDetails.StatusBadgeColor | src/pages/OrderDetails.jsx:116-131 | the five known statuses get their colours, matched exactly; anything else gets 'secondary' |
| OrderDetails.StatusColorsDistinct | src/pages/OrderDetails.jsx:116-131 | distinct known statuses get distinct colours, none of them the fallback |
| OrderDetails.PaymentStatusColor | src/pages/OrderDetails.jsx:146-157 | paid, pending and failed get their colours; anything else gets 'secondary' |
| OrderDetails.PaymentMethodName | src/pages/OrderDetails.jsx:134-143 | 'cod' and 'card' get their display names; any other value is shown as it is |
| OrderDetails.PaymentMethodNameIdempotent | src/pages/OrderDetails.jsx:134-143 | a display name maps to itself |
| AdminOrderDetails.StatusBadge | src/admin/pages/AdminOrderDetails.jsx:126-179 | a missing or empty status reads UNKNOWN on grey; any other is shown upper-cased, coloured by its lower-cased form, grey when unknown |
| AdminOrderDetails.PaymentStatusBadge | src/admin/pages/AdminOrderDetails.jsx:192-243 | the same scheme over pending, paid and failed |
| AdminOrderDetails.BadgesIgnoreCase | src/admin/pages/AdminOrderDetails.jsx:156 | two spellings that differ only in letter case get the same colour |
| AdminOrderDetails.StatusBadgeMatchesCustomerPage | src/admin/pages/AdminOrderDetails.jsx:148-156 | for any non-empty status the admin colour is the hexadecimal value of the colour the customer's order page gives the lower-cased status |
| AdminOrderDetails.DisplayedSubtotalAsWritten | src/admin/pages/AdminOrderDetails.jsx:376-379 | the subtotal row as written: stored total minus shipping plus code discount plus the raw points count |
| AdminOrderDetails.DisplayedSubtotalAsWrittenOverstates | src/admin/pages/AdminOrderDetails.jsx:376-379 | for an order priced at checkout the row as written overstates the line totals by 99/100 of the points used, and is right exactly when no points were used |
| AdminOrderDetails.DisplayedSubtotalAsWrittenExample | src/admin/pages/AdminOrderDetails.jsx:376-379 | one line of 50, shipping 10 and 100 points: the row as written shows 149, the corrected row 50 |
| AdminOrderDetails.DisplayedSubtotal | src/admin/pages/AdminOrderDetails.jsx:376-379 | the row with the points converted at 100 per unit |
| AdminOrderDetails.DisplayedSubtotalRecoversItems | src/admin/pages/AdminOrderDetails.jsx:376-379 | for an order priced at checkout the corrected row is the sum of the line totals, the subtotal the customer page shows |
| AdminOrderDetails.OpenedStatus | src/admin/pages/AdminOrderDetails.jsx:82-88 | the editor opens on the order's status, or "pending" when it has none; never empty |
| AdminOrderDetails.SendsUpdate | src/admin/pages/AdminOrderDetails.jsx:93-97 | an order without a status always gets the update; choosing the order's own status sends nothing |
| AdminOrderDetails.OpenThenSubmitSendsIffNoStatus | src/admin/pages/AdminOrderDetails.jsx:82-97 | submitting straight after opening sends an update exactly when the order has no status |
| AdminOrderDetails.StatusEditor.constructor | src/admin/pages/AdminOrderDetails.jsx:31-35 | modal closed, empty form |
| AdminOrderDetails.StatusEditor.OpenStatusModal | src/admin/pages/AdminOrderDetails.jsx:82-88 | the form holds the opened status and an empty note, and the modal is open |
| AdminOrderDetails.StatusEditor.HandleStatusChange | src/admin/pages/AdminOrderDetails.jsx:75-80 | only the named form field takes the new value |
| AdminOrderDetails.StatusEditor.HandleSubmitStatus | src/admin/pages/AdminOrderDetails.jsx:90-116 | an unchanged status sends nothing and closes the modal; a changed one sends the form; success closes the modal and reloads; a refusal or a throw keeps the modal and shows the server's or the default message |
| AdminOrders.Defined | src/admin/pages/AdminOrders.jsx:46-47 | an empty filter is left out of the request, any other is sent as it is |
| AdminOrders.AdminOrdersView.constructor | src/admin/pages/AdminOrders.jsx:25-32 | no orders, page 1 of 1, no filters |
| AdminOrders.AdminOrdersView.BuildParams | src/admin/pages/AdminOrders.jsx:43-58 | the request always carries the page and a limit of 20, the two filters when set, and both range ends exactly when the time filter is "custom" and both are set |
| AdminOrders.AdminOrdersView.HandleTimeFilterChange | src/admin/pages/AdminOrders.jsx:79-82 | the time filter takes the value and the list goes back to page 1; nothing else changes |
| AdminOrders.AdminOrdersView.HandleStatusFilterChange | src/admin/pages/AdminOrders.jsx:84-87 | the status filter takes the value and the list goes back to page 1; nothing else changes |
| AdminOrders.AdminOrdersView.HandleCustomDateChange | src/admin/pages/AdminOrders.jsx:89-95 | only the named end of the range changes |
| AdminOrders.AdminOrdersView.HandleApplyCustomDate | src/admin/pages/AdminOrders.jsx:97-103 | the list is requested again exactly when both ends are set; otherwise a warning is shown |
| AdminOrders.AdminOrdersView.HandlePageChange | src/admin/pages/AdminOrders.jsx:105-108 | a page in 1..totalPages is taken, any other ignored; the page stays at least 1 |
| AdminOrders.AdminOrdersView.ReceiveOrders | src/admin/pages/AdminOrders.jsx:60-73 | a success with a list replaces the list and the page count (1 when missing or 0); a success without a list throws at the log of its first element and, like a thrown request, shows the default message and keeps both; a failure keeps both and shows the server's message or the default one |
| AdminProducts.SearchProducts | src/admin/pages/AdminProducts.jsx:20-33 | a blank term shows every product; otherwise a product is listed exactly when its name, category or brand contains the term, ignoring case |
| AdminProducts.SearchKeepsOrder | src/admin/pages/AdminProducts.jsx:26-30 | the search keeps the products in their list order |
| AdminProducts.SearchIdempotent | src/admin/pages/AdminProducts.jsx:20-33 | searching the search result again for the same term changes nothing |
| AdminProducts.TruncateText | src/admin/pages/AdminProducts.jsx:69-72 | a missing or empty text shows as ""; a short one as it is; a longer one as its first `maxLength` characters and "..."; never more than `maxLength` + 3 characters |
| AdminUsers.FilterUsers | src/admin/pages/AdminUsers.jsx:42-61 | a user is listed exactly when the role filter is empty or equals the user's role and the term is blank or found in the name or e-mail ignoring case; the list keeps its order; no filters list everyone |
| AdminUsers.Listed | src/admin/pages/AdminUsers.jsx:42-60 | with no role filter and a blank term every user is listed; a listed user has the filtered role, and the term in the name or e-mail when the term is not blank |
| AdminUsers.RoleBadge | src/admin/pages/AdminUsers.jsx:149-195 | a missing or empty role reads UNKNOWN on grey; any other is shown upper-cased, red exactly for "admin" in any case, blue otherwise |
| AdminUsers.RoleBadgeIgnoresCase | src/admin/pages/AdminUsers.jsx:172 | two spellings of a role that differ only in case get the same colour |
| Api.NextCounter | src/services/api.js:44 | a set counter goes up by one; an unset or zero counter becomes 1 |
| Api.NeverRetriedAsWritten | src/services/api.js:34-41 | as written, a request with an unset or zero counter is given up whatever the failure, so no request is ever retried |
| Api.GivesUpAsWritten | src/services/api.js:34-41 | as written, a request with an unset or zero counter is always given up; with a set counter it is given up only after 3 retries or on an answer below 500 |
| Api.GivesUp | src/services/api.js:33-41 | the intended test retries a request with a config and fewer than 3 retries on a network error or a 5xx answer, gives up otherwise, and gives up no more often than the written test |
| Api.BackoffDelay | src/services/api.js:47 | the delay is 100 ms for counter 0 and doubles with every retry, so it is `2^retry * 100` |
| Api.RetriesBounded | src/services/api.js:34-52 | with the intended test a request is retried at most 3 times in all, whatever the failures |
| Api.RetriesExhausted | src/services/api.js:34-52 | with the intended test a request that keeps failing with network errors or 5xx answers is retried exactly until the counter reaches 3 |
| Api.RequestConfig.constructor | src/services/api.js:31 | a request with its URL and method and no retry counter |
| Api.HandleFailure | src/services/api.js:28-54 | with the intended test: a retry happens exactly when the request is not given up; it sets the counter to the next value, never above 3, and waits the backoff delay for it; URL and method are kept |
| Api.SessionStore.constructor | src/services/api.js:15 | the stored token and user text |
| Api.SessionStore.GetCurrentUser | src/services/api.js:103-112 | no user when the text is missing, empty or does not parse to an object; otherwise the parsed user |
| Api.SessionStore.IsLoggedIn | src/services/api.js:114-116 | signed in exactly when a token is stored: without a token not signed in, an empty token still counts |
| Api.SessionStore.IsAdmin | src/services/api.js:118-128 | never an admin without a non-empty user text; an admin's text parses to a user object whose role is "admin" |
| Api.SessionStore.SignedOutHasNoUser | src/services/api.js:98-101 | once the user text is removed there is no current user and no admin |
| Api.SessionStore.IsAdminIffCurrentUserAdmin | src/services/api.js:118-128 | `isAdmin` holds exactly when the current user exists and has the role "admin" |
| Api.SessionStore.HandleUnauthorized | src/services/api.js:57-76 | a 401 on anything but a checkout POST removes token and user and sends the browser to '/login' unless it is on a checkout page; any other answer changes nothing |
| CartPage.VariantName | src/pages/Cart.jsx:150-152 | the variant name the cart service attached, else the line's variant name, else "Standard" |
| CartPage.VariantLabel | src/pages/Cart.jsx:259 | the variant column shows the line's variant name, or "Standard" without a variant |
| CartPage.LabelMatchesNameWithoutProductData | src/pages/Cart.jsx:150-152 | without a variant name from the cart service, the column label and the computed variant name agree |
| CartPage.CartImageSource | src/pages/Cart.jsx:158-179 | the cart service's image when set (the first entry of a JSON array text), else the line's own image, else the placeholder |
| CartPage.CartImageFromJsonArray | src/pages/Cart.jsx:163-172 | a JSON array text yields its first element; an empty array or a parse failure keeps the text |
| CartPage.ResolveImageUrl | src/pages/Cart.jsx:156-199 | the row's image is the source reference made into a row image path |
| CartPage.RowImage | src/pages/Cart.jsx:182-199 | full URLs, the placeholder and uploads paths are kept; another path starting with '/' goes under '/uploads'; a bare name goes under '/uploads/products/' |
| CartPage.RowImageProductsPath | src/pages/Cart.jsx:191-192 | a '/products/' path is served from '/uploads/products/' |
| CartPage.RowImageShape | src/pages/Cart.jsx:182-199 | every non-empty image a row shows is a full URL, the placeholder or a path under '/uploads/' |
| CartPage.RowImageAgreesWithProcessImageUrl | src/pages/Cart.jsx:182-199 | on a bare file name, and on a '/products/' path without repeated '/', the row's image is what `processImageUrl` gives |
| CartPage.IncrementRequest | src/pages/Cart.jsx:212-223 | the update asks for the line's quantity plus one |
| CartPage.DecrementRequest | src/pages/Cart.jsx:225-238 | an update is sent only while the quantity is above 1, asking for one less, so never below 1 |
| CartPage.DecrementUndoesIncrement | src/pages/Cart.jsx:212-238 | decrementing after an increment asks for the original quantity again |
| OrderHistory.FirstTruthy | src/pages/OrderHistory.jsx:95-107 | the first truthy candidate, every earlier one being falsy, or the default when none is truthy |
| OrderHistory.StatusCandidates | src/pages/OrderHistory.jsx:97-106 | the five places a status is looked for, in the order status, orderStatus, state, currentStatus, orderDetails.status |
| OrderHistory.NormalizedStatus | src/pages/OrderHistory.jsx:95-107 | never empty; the first non-empty of status, orderStatus, state, currentStatus and orderDetails.status, each named case by case; "pending" when none holds one |
| OrderHistory.Normalize | src/pages/OrderHistory.jsx:110-113 | the order with a truthy status filled in and every other field kept |
| OrderHistory.NormalizeIdempotent | src/pages/OrderHistory.jsx:93-114 | normalising a normalised order changes nothing |
| OrderHistory.NormalizeKeepsStatus | src/pages/OrderHistory.jsx:97-98 | an order that already has a status is left as it is |
| OrderHistory.NormalizeAll | src/pages/OrderHistory.jsx:93-114 | one normalised order per order, in order, each with a truthy status |
| OrderHistory.PagesFrom | src/pages/OrderHistory.jsx:38-40 | a page count exactly when there is a pagination block: its `totalPages`, or 1 when that is missing or 0 |
| OrderHistory.Extract | src/pages/OrderHistory.jsx:32-72 | the four shapes are tried in order and the first that matches supplies the orders and the page count; an unrecognised answer or no answer gives its error and no orders |
| OrderHistory.TopLevelOrdersWin | src/pages/OrderHistory.jsx:34-35 | a successful answer with a top-level order array wins over every other shape it might also carry |
| OrderHistory.ThrownError | src/pages/OrderHistory.jsx:119 | the thrown message after "Error loading orders: ", or "Unknown error" |
| OrderHistory.StatusBadgeColor | src/pages/OrderHistory.jsx:181-200 | by the lower-cased status, both spellings of cancelled giving 'danger'; 'secondary' for a missing or unknown status |
| OrderHistory.StatusBadgeColorIgnoresCase | src/pages/OrderHistory.jsx:184 | the colour does not depend on letter case |
| OrderHistory.StatusBadgeColorAgreesWithOrderPage | src/pages/OrderHistory.jsx:181-200 | apart from the spelling "canceled", the history page colours a status as the order page colours its lower-cased form |
| OrderHistory.OrderHistoryView.constructor | src/pages/OrderHistory.jsx:10-14 | no orders, loading, no error, page 1 of 1 |
| OrderHistory.OrderHistoryView.FetchOrders | src/pages/OrderHistory.jsx:20-124 | the orders are the normalised orders of the first matching shape with its error; the page count changes only when the answer carries one; a throw empties the list and shows its message; every listed order has a status |
| ProductDetails.ProductDetailsView.constructor | src/pages/ProductDetails.jsx:33-34 | quantity 1 and no variant selected |
| ProductDetails.ProductDetailsView.HandleQuantityChange | src/pages/ProductDetails.jsx:126-132 | "increase" adds one; "decrease" subtracts one only above 1; anything else changes nothing; the quantity stays at least 1 |
| ProductDetails.ProductDetailsView.HandleVariantChange | src/pages/ProductDetails.jsx:134-136 | the selected variant becomes the given one and the quantity is kept |
| ProductDetails.CalculateTotalPrice | src/pages/ProductDetails.jsx:138-148 | 0 without a product; otherwise the base price plus the selected variant's surcharge, times the quantity |
| ProductDetails.UnitPrice | src/pages/ProductDetails.jsx:141-145 | the base price without a variant, the base price plus the variant's surcharge with one (a zero surcharge adds nothing either way) |
| ProductDetails.TotalPriceStep | src/pages/ProductDetails.jsx:138-148 | one more unit adds exactly one unit price |
| ProductDetails.AddToCart | src/pages/ProductDetails.jsx:151-169 | nothing is sent exactly when the product lists variants and none is selected; otherwise the request carries the product id, the selected variant's id or null, and the quantity |
| ProductDetails.FindById | src/pages/ProductDetails.jsx:49-51 | the first product of the catalogue with the id, or none exactly when no product has it |
| ProductDetails.RelatedProductsMembers | src/pages/ProductDetails.jsx:60-69 | a product is related exactly when the shown product exists and the product is in the catalogue, shares its category and is not it |
| ProductDetails.RelatedProducts | src/pages/ProductDetails.jsx:60-69 | nothing when the product is not found; otherwise only catalogue products of its category that are not it |
| ProductDetails.RelatedProductsInOrder | src/pages/ProductDetails.jsx:62-65 | the related products keep the catalogue order |
| Profile.ProfileError | src/pages/Profile.jsx:77-89 | a blank name is reported first, then an e-mail that is blank or not of the e-mail shape |
| Profile.ProfileAcceptedIff | src/pages/Profile.jsx:77-89 | the profile is sent exactly when the name is non-blank and the e-mail has the e-mail shape |
| Profile.PasswordError | src/pages/Profile.jsx:142-156 | the change is sent exactly when a current password is given, the new one has at least 6 characters and the confirmation matches; the checks report in that order |
| Profile.MessageOr | src/pages/Profile.jsx:111 | the server's message when it is non-empty, else the fallback |
| Profile.ProfileView.constructor | src/pages/Profile.jsx:32-42 | empty forms, no error, the stored user |
| Profile.ProfileView.HandleProfileSubmit | src/pages/Profile.jsx:74-121 | an invalid form sends nothing and shows its message; an accepted update shows success and copies name and e-mail into the stored user, when there is one; a refusal sets the page error; a throw sets it and shows it |
| Profile.ProfileView.HandlePasswordSubmit | src/pages/Profile.jsx:139-185 | an invalid change sends nothing and shows its message; an accepted one clears the three fields; a refusal or throw sets the page error, shown as a toast only for a throw |
| Register.HandleRegister | src/pages/Register.jsx:25-42 | registration goes ahead exactly when the passwords match and have at least 6 characters; a mismatch is reported before a short password; the account sent carries name, e-mail and password |
| Register.ChecksInOppositeOrder | src/pages/Register.jsx:29-37 | a short mismatched password is reported as a mismatch here and as too short on the profile page, which checks the length first |
| Register.AcceptedHereAcceptedOnProfile | src/pages/Register.jsx:29-37 | a password the registration form accepts also passes the profile page's password checks with any current password |
| Shop.OrEmpty | src/pages/Shop.jsx:121-126 | a query parameter or "": the value when it is non-empty, "" otherwise |
| Shop.Narrow | src/pages/Shop.jsx:54-74 | an inactive filter leaves the list as it is |
| Shop.NarrowMembers | src/pages/Shop.jsx:54-74 | after one filtering step a product remains exactly when it was there and the filter is inactive or passes it |
| Shop.PrefilteredMembers | src/pages/Shop.jsx:54-74 | after the five filters a product remains exactly when it is in the catalogue and passes every active one of category, brand, search, minimum and maximum price |
| Shop.SelectedMembers | src/pages/Shop.jsx:51-106 | a product is listed exactly when it is in the catalogue and passes every active filter, flags included, wherever it sorts |
| Shop.OnlyFlagsSet | src/pages/Shop.jsx:51-106 | with none of the six filter fields set, only the flag filters narrow the catalogue |
| Shop.Matches | src/pages/Shop.jsx:54-106 | with no parameters every product matches; a matching product has the requested category and is new when the new flag is set |
| Shop.RequestedSort | src/pages/Shop.jsx:75-98 | a sort is requested exactly when the sort parameter is one of price_asc, price_desc, name_asc, name_desc and newest |
| Shop.SortStep | src/pages/Shop.jsx:75-98 | the sort step rearranges the list and keeps its elements |
| Shop.FlagStep | src/pages/Shop.jsx:100-106 | the flag filters never lengthen the list |
| Shop.Selected | src/pages/Shop.jsx:51-106 | the selected list is never longer than the catalogue |
| Shop.FilterKeepsSorted | src/pages/Shop.jsx:101-106 | filtering a sorted list keeps it sorted |
| Shop.SelectedSorted | src/pages/Shop.jsx:75-106 | with a recognised sort option the listed products are in that option's order; the flag filters after the sort keep it |
| Shop.NarrowSubsequence | src/pages/Shop.jsx:54-74 | a filtering step keeps the list a subsequence of the catalogue |
| Shop.SelectedUnsortedKeepsOrder | src/pages/Shop.jsx:75-106 | without a recognised sort option ("rating", "bestselling" or any other value) the list keeps the catalogue order |
| Shop.TotalPages | src/pages/Shop.jsx:108-110 | at least 1; 1 for an empty list; otherwise the fewest pages of 12 that hold the list |
| Shop.Page | src/pages/Shop.jsx:111 | `slice((page - 1) * 12, page * 12)`: at most 12 products, the i-th being the list's ((page - 1) * 12 + i)-th |
| Shop.SecondPage | src/pages/Shop.jsx:111 | the second page of a list of 13 to 24 products is everything from the thirteenth on |
| Shop.PageHolds | src/pages/Shop.jsx:108-111 | every listed product is on a page in 1..totalPages, at the position its index gives |
| Shop.PageWithin | src/pages/Shop.jsx:111 | every product on any page of a list, whatever the page number, is in the list |
| Shop.SearchListsOnlyMatches | src/pages/Shop.jsx:59-63 | with a non-empty search term every product on every page has a name containing the term, ignoring case |
| Shop.SearchBoxListsNonMatch | src/pages/Shop.jsx:306-308 | with no parameters the first product of the catalogue is on page 1 even when its name lacks the term, which a search for the term keeps off that page |
| Shop.PageSizeInRange | src/pages/Shop.jsx:108-111 | a page in range holds 1 to 12 products, exactly 12 unless it is the last |
| Shop.FilterAndPaginate | src/pages/Shop.jsx:51-116 | the published products are the requested page of the filtered, sorted, flag-filtered list; the page count is that list's; the current page is the one asked for |
| Shop.DropEmpty | src/pages/Shop.jsx:147-149 | a parameter whose value is "" is dropped, any other kept |
| Shop.Clean | src/pages/Shop.jsx:147-149 | no parameter value is left empty, and every value that was not empty is kept |
| Shop.UrlParams | src/pages/Shop.jsx:121-146 | the six fields are always passed, a missing one as ""; after cleaning a field is present exactly when the query has it non-empty; the flags are passed as the query has them |
| Shop.UrlPage | src/pages/Shop.jsx:127 | the page the query names, 1 when it names none |
| Shop.FiltersOfUrl | src/pages/Shop.jsx:121-146 | the filter state the URL leaves keeps the query's flags, and a corrected page change from it passes exactly the parameters the URL effect passed |
| Shop.SelectedBySameReadings | src/pages/Shop.jsx:51-106 | the pipeline reads each parameter only through its truthiness and its value-or-empty reading, so parameters that agree on both select the same list |
| Shop.CleanKeepsSelection | src/pages/Shop.jsx:147-150 | dropping empty parameters changes nothing the filters see, and cleaning twice is cleaning once |
| Shop.PageChangeParamsAsWritten | src/pages/Shop.jsx:200-207 | as written, a page change passes the six form fields and never the `isNew` or `isBestSeller` flag |
| Shop.PageChangeAsWrittenExample | src/pages/Shop.jsx:197-207 | with thirteen new products and one that is not, the URL `?isNew=true` shows 2 pages of new products, but page 2 as written shows a product that is not new, while the corrected page 2 shows only new ones |
| Shop.ExampleSelections | src/pages/Shop.jsx:119-207 | in the example, the URL listing and the corrected page change select the thirteen new products, while the page change as written selects the whole catalogue |
| Shop.NewFlagSelections | src/pages/Shop.jsx:119-207 | under `?isNew=true`, for any new products followed by one that is not new, the URL listing and the corrected page change keep exactly the new ones, while the page change as written keeps them all |
| Shop.PageChangeParams | src/pages/Shop.jsx:200-207 | the corrected page change passes the same fields plus the flags of the listing shown |
| Shop.PageChangeFollowsUrlListing | src/pages/Shop.jsx:119-150 | after the URL effect, a corrected page change pages through the very list the URL effect selected |
| Shop.ShopView.FormParams | src/pages/Shop.jsx:173-180 | the form's parameters are the six fields without flags |
| Shop.ShopView.constructor | src/pages/Shop.jsx:29-40 | empty fields, no products, page 1 of 1 |
| Shop.ShopView.SetFilters | src/pages/Shop.jsx:128-133 | the fields take the given values and the listing is untouched |
| Shop.ShopView.Show | src/pages/Shop.jsx:112-114 | the listing is published and the fields are untouched |
| Shop.ShopView.SyncWithUrl | src/pages/Shop.jsx:119-151 | the fields take the query's values (or ""), and the page the query names of the list its parameters select is shown |
| Shop.ShopView.EditFilter | src/pages/Shop.jsx:228-240 | one form field takes the new value; nothing else changes |
| Shop.ShopView.ApplyFilters | src/pages/Shop.jsx:153-185 | the form's values select the list shown from page 1, with no flags |
| Shop.ShopView.ClearFilters | src/pages/Shop.jsx:187-195 | every field is emptied and the whole catalogue is shown from page 1 |
| Shop.ShopView.SearchBoxSubmit | src/pages/Shop.jsx:306-308 | the Enter key or the search icon shows the whole catalogue from page 1 with no flags, while the form keeps every field it shows |
| Shop.ShopView.SearchBoxSearch | src/pages/Shop.jsx:153-185 | the search box as evidently intended: the form's values select the list shown from page 1, and every product listed contains a non-empty search term |
| Shop.ShopView.HandlePageChange | src/pages/Shop.jsx:197-212 | a page outside 1..totalPages changes nothing; otherwise that page of the list the fields and the shown listing's flags select is shown |
| ShopOrder.LexLeTotal | src/pages/Shop.jsx:84-87 | any two names are ordered one way or the other |
| ShopOrder.LexLeTransitive | src/pages/Shop.jsx:84-87 | the name order is transitive |
| ShopOrder.SortKeyOf | src/pages/Shop.jsx:76-98 | a sort is applied exactly for price_asc, price_desc, name_asc, name_desc and newest |
| ShopOrder.InOrderTotal | src/pages/Shop.jsx:77-91 | under every sort option any two products are ordered one way or the other |
| ShopOrder.InOrderTransitive | src/pages/Shop.jsx:77-91 | every sort option's order is transitive |
| ShopOrder.Insert | src/pages/Shop.jsx:77-91 | inserting a product adds exactly it to the list's elements |
| ShopOrder.InsertSorted | src/pages/Shop.jsx:77-91 | inserting into a sorted list keeps it sorted |
| ShopOrder.SortBy | src/pages/Shop.jsx:77-91 | the sorted list is a permutation of the list |
| ShopOrder.SortBySorted | src/pages/Shop.jsx:77-91 | the sorted list is in the order the option names |
| AddressManagement.RequiredChecks | src/components/Profile/AddressManagement.jsx:70-75 | a field has a "required" message exactly when it is blank, each with its own message |
| AddressManagement.SetIf | src/components/Profile/AddressManagement.jsx:70-75 | `if (cond) errors[field] = message`: the field is set to the message when the condition holds, and every other field is left as it was |
| AddressManagement.FieldError | src/components/Profile/AddressManagement.jsx:67-80 | a blank field always has an error; a required message only on a blank field; the format message only for a phone that fails the pattern |
| AddressManagement.ValidateForm | src/components/Profile/AddressManagement.jsx:67-84 | the errors are, field by field, the required message or the phone format message that overrides it, and the form passes exactly when there is none |
| AddressManagement.FormAcceptedIff | src/components/Profile/AddressManagement.jsx:67-84 | the form is accepted exactly when the five text fields are non-blank and the phone has the accepted shape, whatever the second line and the country hold |
| AddressManagement.FormOf | src/components/Profile/AddressManagement.jsx:125-135 | the edit form copies the address, with "" for a missing second line and "Vietnam" for a missing or empty country |
| AddressManagement.EditedAddressStaysValid | src/components/Profile/AddressManagement.jsx:123-139 | an address saved from a form that passed the checks opens for editing as a form that passes them |
| AddressManagement.FindById | src/components/Profile/AddressManagement.jsx:193 | the first address with the id, or none exactly when no address has it |
| AddressManagement.SetDefaultRequest | src/components/Profile/AddressManagement.jsx:191-198 | an update is sent exactly when the address exists and is not already the default, and it is that address marked default |
| AddressManagement.SetDefaultOnDefaultSendsNothing | src/components/Profile/AddressManagement.jsx:194 | an address that already is the default produces no request |
| AddressManagement.AddressEditor.constructor | src/components/Profile/AddressManagement.jsx:16-32 | the empty form, no address being edited, the dialog closed, no errors |
| AddressManagement.AddressEditor.HandleAddAddress | src/components/Profile/AddressManagement.jsx:104-120 | the empty form for a new address, errors cleared, the dialog toggled |
| AddressManagement.AddressEditor.HandleEditAddress | src/components/Profile/AddressManagement.jsx:123-139 | the address copied into the form and remembered, errors cleared, the dialog toggled |
| AddressManagement.AddressEditor.Validate | src/components/Profile/AddressManagement.jsx:142-148 | the published errors are the form's field errors, and the form is submitted exactly when there is none |
| UseGetData.Dispatch | src/custom-hooks/useGetData.js:17-30 | "products" asks for all products; a 'products/category/' name for the category in its last segment; any other 'products/' name for the product in its last segment; anything else is unsupported |
| UseGetData.CollectionName | src/custom-hooks/useGetData.js:17-30 | every supported query has a collection name |
| UseGetData.DispatchRoundTrip | src/custom-hooks/useGetData.js:17-30 | dispatching a query's collection name gives the query back, provided its argument is one path segment |
| UseGetData.Received | src/custom-hooks/useGetData.js:34-42 | a successful answer's product list, or an empty list when it has none, when the answer failed or when the call threw |
| UseGetData.DataHook.constructor | src/custom-hooks/useGetData.js:5-6 | no data and loading |
| UseGetData.DataHook.FetchData | src/custom-hooks/useGetData.js:8-46 | a query is issued exactly when the name is supported, and then the data is what its answer yields; an unsupported name gives no data; data is only ever shown from a successful answer; loading ends either way |
| Login.UnderscoresToSpaces | src/pages/Login.jsx:28 | every underscore becomes a space and every other character stays |
| Login.UnderscoresToSpacesIdempotent | src/pages/Login.jsx:28 | replacing underscores a second time changes nothing |
| Login.ErrorToast | src/pages/Login.jsx:23-30 | a toast exactly when the `error` parameter is set and non-empty; its text is the parameter with every underscore turned into a space and every other character kept |
| Login.OnArrival | src/pages/Login.jsx:32-37 | a signed-in visitor is sent to '/' and nobody else is sent anywhere |
| Login.RedirectTarget | src/pages/Login.jsx:62-68 | an admin goes to '/admin/products'; anyone else to the `redirect` parameter, or '/' when it is missing or empty; never to an empty target |
| Login.AfterSync | src/pages/Login.jsx:56-82 | whether the cart sync succeeds or fails, the browser goes to the same target |
| Login.HandleLogin | src/pages/Login.jsx:39-54 | the cart sync and the navigation happen exactly when the login is accepted, with the success toast; a rejection shows the server's message or "Login failed"; the spinner stops either way |
| ProtectedRoute.AdminOnlyIsStricter | src/routers/ProtectedRoute.js:15 | an admin-only route admits exactly signed-in admins, a subset of those a plain protected route admits |
| ProtectedRoute.Authorized | src/routers/ProtectedRoute.js:15 | an authorised user is signed in, and an admin on an admin-only route; a signed-in admin is authorised everywhere and a signed-in user on any plain route |
| ProtectedRoute.RouteGuard.constructor | src/routers/ProtectedRoute.js:6-7 | not yet checked and not authorised |
| ProtectedRoute.RouteGuard.CheckAuth | src/routers/ProtectedRoute.js:9-19 | the check is recorded, and the user is authorised exactly when the rule admits the stored session |
| ProtectedRoute.RouteGuard.Render | src/routers/ProtectedRoute.js:21-28 | nothing before the check; the page exactly when checked and authorised; otherwise a redirect to '/' from an admin-only route and to '/login' from any other |
| ProtectedRoute.Guard | src/routers/ProtectedRoute.js:5-29 | once checked, the page is shown exactly to the users the rule admits and everyone else is redirected; a signed-out visitor of a plain route goes to '/login' |
| AdminNav.AtMostOneActive | src/components/AdminNav.jsx:12-17 | no path highlights two menu items |
| AdminNav.IsActive | src/components/AdminNav.jsx:12-17 | an active menu item means the current path lies under '/admin' |
| AdminNav.ActiveKey | src/components/AdminNav.jsx:12-17 | an active item is the dashboard on '/admin', or the current path carries the item's own letter right after '/admin/' |
| AdminNav.ActiveItem | src/components/AdminNav.jsx:12-51 | the highlighted item is one the path activates, and any item the path activates is the highlighted one |
| AdminNav.AdminRootHighlightsDashboard | src/components/AdminNav.jsx:13-14 | '/admin' highlights the dashboard and nothing else |
| AdminNav.SubpageKeepsItem | src/components/AdminNav.jsx:15-16 | every page under the products, orders or users item keeps that item highlighted |
| AdminLayout.TitleAsWritten | src/admin/components/AdminLayout.jsx:9-15 | the title as written: from the last path segment, with the edit test on that segment |
| AdminLayout.EditPageTitleAsWritten | src/admin/components/AdminLayout.jsx:9-15 | as written, '/admin/products/edit/7' is titled "Admin Dashboard" |
| AdminLayout.Title | src/admin/components/AdminLayout.jsx:9-15 | "Product Management" for a last segment of products, "User Management" for users, "Edit Product" exactly when otherwise the path contains "edit", else "Admin Dashboard" |
| AdminLayout.EditPageTitle | src/admin/components/AdminLayout.jsx:9-15 | every product edit page '/admin/products/edit/<id>' is titled "Edit Product" |
| AdminLayout.ListPageTitles | src/admin/components/AdminLayout.jsx:13-14 | the product and user list pages get their own titles |
| AdminLayout.DashboardTitles | src/admin/components/AdminLayout.jsx:12-15 | '/admin' and '/admin/dashboard' are titled "Admin Dashboard" |
| AdminLayout.OrderListTitle | src/admin/components/AdminLayout.jsx:9-15 | the order list '/admin/orders' is titled "Admin Dashboard" |
| AdminLayout.NoEditTitledDashboard | src/admin/components/AdminLayout.jsx:9-15 | a path without an 'e' whose last segment is neither products nor users is titled "Admin Dashboard" |
| AdminLayout.OrdersTitledDashboard | src/admin/components/AdminLayout.jsx:9-15 | a path without a 't' in its prefix or last segment, whose last segment is neither products nor users, is titled "Admin Dashboard" |
| AdminLayout.OrderPageTitle | src/admin/components/AdminLayout.jsx:9-15 | every order page '/admin/orders/<digits>' is titled "Admin Dashboard" |
| AdminLayout.TitlesAgreeOnSegmentEdits | src/admin/components/AdminLayout.jsx:9-15 | the two titles agree on every path whose last segment already contains "edit" |
| Home.Section | src/pages/Home.jsx:39-49 | a section holds at most 4 products, the first ones of the list that pass its test: all of them when fewer than 4 pass |
| Home.SectionShape | src/pages/Home.jsx:39-49 | a section holds products of the list that pass its test, in the list's order |
| Home.SectionMissesOnlyWhenFull | src/pages/Home.jsx:39-49 | a passing product is left out of its section only when the section is full |
| Home.CutSections | src/pages/Home.jsx:39-49 | the five sections are the new, best-selling, CPU, GPU and laptop sections of the list |
| Home.CategorySectionsDisjoint | src/pages/Home.jsx:41-48 | no product appears in two category sections |
| Home.Decimal | src/pages/Home.jsx:60 | a status is rendered as a non-empty string of decimal digits |
| Home.DecimalValue | src/pages/Home.jsx:60 | the digits rendered for a number denote exactly that number, with a leading zero only for 0 |
| Home.DecimalInjective | src/pages/Home.jsx:60 | distinct statuses are rendered as distinct texts |
| Home.ErrorMessage | src/pages/Home.jsx:57-65 | a refused connection, a server error (its message, else its status), no answer and any other error each get their message |
| Home.Load | src/pages/Home.jsx:26-69 | a successful answer fills the sections from its list (or from nothing) with no error; any other outcome leaves them empty with the format error or the thrown error's message; loading ends either way |
| Home.ShownProductsCameFromAnswer | src/pages/Home.jsx:39-49 | every product shown on the page came from the answer's list |

## Left out

- HTTP transport: the axios instance, interceptor registration, re-issuing a request and the `setTimeout` wait before it. Server answers and thrown errors are inputs; the network half of every async thunk is outside the model.
- Rendering, toasts, `navigate`, `window.confirm`, `window.scrollTo` and modal visibility. Where a handler's only output is a message or a target path, the model returns it as a value.
- Browser storage: `localStorage` is the `Api.SessionStore` class, whose token and user text are fields. Base64 decoding and the internals of `JSON.parse` are not modelled; the parse result is a parameter.
- `FileReader` and `FormData` assembly in `ProductForm.jsx`, the form's `handleChange` and its edit-mode loading effect, except the preview derivation.
- Timers: the Shop search debounce (`Shop.ShopView.ApplyFilters` models the call the timer finally makes), the simulated discount delay in Checkout, the 100 ms delay before the route guard checks, and polling in the layout.
- Floating point: `toFixed`, float rounding and `parseFloat` details. Money is exact.
- `localeCompare` is plain lexicographic order on characters.
- The stability of JavaScript's `Array.prototype.sort`. `ShopOrder.SortBy` is proved to give a sorted permutation, not to keep equal elements in their original order.
- `NaN` page numbers and string lengths in UTF-16 code units. Strings are sequences of characters.
- The admin order page's `getPaymentMethodName` (`src/admin/pages/AdminOrderDetails.jsx:181-190`). It is the same mapping as `OrderDetails.PaymentMethodName`, which models it.
- The status badge copies in `src/pages/OrderHistory.jsx:126-179` and `src/admin/pages/AdminOrders.jsx:118-172`. They are textually the same as the admin order page's, which `AdminOrderDetails.StatusBadge` models.
- OrderHistory's pagination buttons and the admin user page's edit and delete handlers. These are request plumbing with no rule beyond a page bound already modelled for Shop and AdminOrders.
- AddressManagement's `handleChange`, the address submit and delete requests, and `fetchAddresses`. The validator, the form reset and copy, and the set-default guard are modelled.
- The Cart page's loading and error views and `handleDeleteItem`. The deletion itself is `CartSlice.CartStore.DeleteCartItem`.
- Checkout's `fetchUserData`, `handleAddressChange`, `populateAddressForm`, the empty-cart redirect and the navigation to the confirmation page.
- ProductDetails' main image and thumbnail choice.
- Register's navigation after the call and the arrival redirects of Register and Login. `Login.OnArrival` models the latter's decision only.
- `AuthService.login` is a `LoginResponse` parameter, and the admin flag read after the cart sync is a boolean parameter.
- `useGetData`'s console logging.
- The Home page's error status is a natural number rendered by `Home.Decimal`. Other JavaScript values in that position are not modelled.
- Shop.ShopView: the class has two fields the page does not have, `isNew` and `isBestSeller`. They hold the flags of the listing shown, which the corrected page change uses (see Findings).
- Common.ToLower and Common.ToUpper fold only the ASCII letters, where JavaScript's `toLowerCase` and `toUpperCase` fold every Unicode letter. As a result, `AdminProducts.SearchProducts`, `AdminUsers.FilterUsers`, `Shop`'s search filter and the case-insensitive badge colours differ from the source on non-ASCII letters: the term "é" finds "École" in the page but not in the model. White space (`Common.IsWhitespace`) covers the full set that `trim()` and `\s` use.
- ImageUtils.ProcessImageUrlStable: holds for every processed URL except the placeholder, which a second pass moves to '/uploads/products/placeholder.png' (`ImageUtils.PlaceholderNotStable`).
- Shop.ShopView.SearchBoxSubmit: models the search box's Enter key and search icon (src/pages/Shop.jsx:306-308) as written, which list the whole catalogue; `Shop.ShopView.SearchBoxSearch` models the evidently intended search (see Findings). The page renders only the written handler.
- Shop.ShopView.HandlePageChange: this pages with the corrected parameters `Shop.PageChangeParams`, which keep the listing's flags. `Shop.PageChangeParamsAsWritten` models the written parameters, which drop them (see Findings).
- Api.HandleFailure: this models the retry test as intended, not as written. `Api.NeverRetriedAsWritten` models the written test (see Findings).
- AdminLayout.Title: this models the title chain as intended for product edit pages. `AdminLayout.TitleAsWritten` models the written chain (see Findings).

## Findings

| source | as written | input that shows it | evidently intended | confidence | as-written member | corrected member |
|---|---|---|---|---|---|---|
| src/services/api.js:34-44 | the test `!config.retry` gives up on every request whose retry counter is unset, so the `config.retry ? … : 1` branch never runs and no request is ever retried | a fresh request answered with status 503 | retry up to 3 times on network errors and 5xx answers, with a doubling delay | not executed | Api.NeverRetriedAsWritten | Api.RetriesExhausted |
| src/admin/pages/AdminOrderDetails.jsx:376-379 | the subtotal row adds the loyalty points used as currency, while checkout deducted points/100 | one line of 50, shipping 10 and 100 points: the stored total is 59 and the row shows 149 instead of 50 | add back points/100, which gives the item subtotal | not executed | AdminOrderDetails.DisplayedSubtotalAsWrittenExample | AdminOrderDetails.DisplayedSubtotalRecoversItems |
| src/pages/Shop.jsx:197-207 | `handlePageChange` rebuilds the query from the six form fields and drops the `isNew` and `isBestSeller` flags of the URL listing | `/shop?isNew=true` over thirteen new products and one that is not: page 2 shows the product that is not new | page within the same flagged listing | not executed | Shop.PageChangeAsWrittenExample | Shop.PageChangeFollowsUrlListing |
| src/admin/components/AdminLayout.jsx:9-15 | the title is chosen from the last path segment only, so the `includes('edit')` branch is reached only when the id itself contains "edit" | `/admin/products/edit/7`, the product edit route: titled "Admin Dashboard" | "Edit Product" on every product edit page | not executed | AdminLayout.EditPageTitleAsWritten | AdminLayout.EditPageTitle |
| src/pages/Shop.jsx:306-308 | the search box's Enter key and its search icon call `filterAndPaginate(1)`, whose parameters default to none (line 51), so the typed term, the other fields and the sort are ignored | the term "shoe" typed into the box over a catalogue whose first product is named "Shirt", then Enter: "Shirt" is listed first | search by the form's values, as the Apply button does | not executed | Shop.SearchBoxListsNonMatch | Shop.ShopView.SearchBoxSearch |
