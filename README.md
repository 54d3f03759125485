# Le p'tit bout de bois — a verified model of the storefront core

This project models "le p'tit bout de bois", a small wooden-goods web shop, in
Dafny, and proves properties of the model. The shop has an Express server over
SQLite and a browser front end. The model covers these parts:

- the public catalogue API (listing in-stock products, product detail with its image gallery, categories and wood types);
- the shipping calculator (free delivery from 50 EUR, otherwise 6.90 EUR) and its two HTTP endpoints;
- order creation, with the item snapshot, the stock decrement and the notification e-mails;
- the admin order list and the order status update;
- the admin API: sign-in, product creation (which fails as written, see Findings) and update with image rows, image deletion with promotion of a new primary image, image reordering and the dashboard figures;
- the contact form and its admin inbox, the settings and categories tables, and the shop-front ("boutique") gallery with its directory import;
- the customer message threads: the `[#THREAD-n]` reply tag, the inbound-mail webhook, unread counts and admin replies;
- the browser-side cart kept in local storage, the two checkout pages, the catalogue page's filters and the admin page's client-side image ordering.

Conventions:

- Money is integer cents: 50 EUR is `5000` and 6.90 EUR is `690`.
- Times are integers.
- Database tables are sequences of rows, with the id counters beside them.
- A missing request field is `None`. JavaScript truthiness is modelled explicitly: `Truthy`, `OrElse` and `IntOr` in `Common`.
- Code that updates state becomes a class whose methods are proved against functions on the old state. These include the cart, the checkout pages, the tables behind each route file and the admin page state.
- Pure code becomes functions with lemmas.

Modules:

- `Common`, `Seqs`, `Text` and `Sorting` hold shared vocabulary:
  - `Text` covers decimal text and its parse, `trim`, ASCII case folding, substring search, file extensions and code-point order.
  - `Sorting` is a stable insertion sort; ORDER BY is modelled with it.
- `OrderItems` is the JSON snapshot of an order's items.
- Every other module mirrors one source file.

## Model

| member | source | states |
|---|---|---|
| ShippingCalculator.CalculateShipping | server/services/shippingCalculator.js:11-35 | Shipping is 0 exactly when the subtotal reaches 5000, otherwise 690. The total is subtotal plus shipping. The message gives the positive amount still missing, or free delivery. |
| ShippingCalculator.ShippingCostMonotone | server/services/shippingCalculator.js:21-26 | A larger subtotal never costs more shipping, and its total is never lower by more than one delivery fee. |
| ShippingCalculator.FormatCents | server/services/shippingCalculator.js:24-25 | The `toFixed(2)` text of an amount has two decimals after the point. |
| ShippingCalculator.FormatCentsRoundTrip | server/services/shippingCalculator.js:24-25 | Reading the formatted amount back gives the euros before the point and the cents after it. |
| ShippingCalculator.MessageText | server/services/shippingCalculator.js:24-25 | The missing-amount message starts with "Plus que ". |
| ShippingCalculator.LinePrice | server/services/shippingCalculator.js:54-58 | A line's price is the product price when truthy, else the line price, else 0. |
| ShippingCalculator.LineQuantity | server/services/shippingCalculator.js:54-58 | A line's quantity is its own when truthy; a missing or zero quantity counts as 1; it is never 0. |
| ShippingCalculator.CartSubtotalNonNegative | server/services/shippingCalculator.js:54-58 | With non-negative prices and quantities the cart subtotal is non-negative. |
| ShippingCalculator.CartSubtotalAppend | server/services/shippingCalculator.js:54-58 | Appending a line adds exactly its price times its quantity to the reduced subtotal. |
| ShippingCalculator.CalculateShippingFromCart | server/services/shippingCalculator.js:42-61 | A missing or empty cart gives all-zero details with the empty-cart message. Any other cart gives the calculation on its subtotal. |
| ShippingCalculator.EmptyCartDiffersFromZeroSubtotal | server/services/shippingCalculator.js:43-51 | An empty cart ships for 0, but a subtotal of 0 passed to the calculation ships for 690. |
| ShippingRoute.PostCalculate | server/routes/shipping.js:10-25 | The POST answers 400 exactly when `items` is missing or not an array, and otherwise the cart calculation. |
| ShippingRoute.GetCalculate | server/routes/shipping.js:31-46 | The GET reads a missing subtotal as 0 and answers 400 exactly for a negative one; otherwise it answers the calculation. |
| Products.Listing | server/routes/products.js:45-77 | The public listing holds exactly the products in stock that match the category and the case-insensitive search, each once, newest first. |
| Products.ListingInStock | server/routes/products.js:47 | Every listed product has a positive stock. |
| Products.SearchIgnoresCategory | server/routes/products.js:55-59 | A product whose name, description and wood type (each absent or present) do not contain the term is not found, even when its category does; the category never changes the search's verdict. |
| Products.Paths | server/routes/products.js:20-21 | `image_paths` lists the images' paths in order. |
| Products.EnrichedOwnImagesSorted | server/routes/products.js:6-27 | The enriched product carries exactly its own image rows, a permutation sorted by display order, and their paths. |
| Products.EnrichedImages | server/routes/products.js:8-13 | Unfolds EnrichProduct: its images are the stable sort of the product's rows by display order, the step the admin listing proofs use; the property is EnrichedOwnImagesSorted. |
| Products.EnrichProducts | server/routes/products.js:30-42 | One entry per product, in order. A failed image lookup leaves that product unenriched, and the others are enriched. |
| Products.GetById | server/routes/products.js:80-101 | 404 exactly when no row has the id. Otherwise the answer is that row, enriched unless the image lookup fails. |
| Products.DistinctSorted | server/routes/products.js:104-125 | SELECT DISTINCT ... ORDER BY: each value once, all values present, in code-point order. |
| Products.Categories | server/routes/products.js:104-113 | Every product's category appears exactly once, and nothing else does, in ascending order. |
| Products.WoodTypes | server/routes/products.js:116-125 | Every non-empty wood type appears exactly once, and nothing else does, in ascending order. |
| Catalogue.SearchMatch | public/js/catalogue.js:149-157 | The client search tests name, description, wood type and category case-insensitively. It throws (None) exactly when it reaches a NULL description or wood type. |
| Catalogue.FilterSearch | public/js/catalogue.js:149-157 | The search filter throws exactly when some product's test throws. Otherwise it is the filter by the search test. |
| Catalogue.FilterProducts | public/js/catalogue.js:131-160 | The shown products are the catalogue filtered on category, search and maximum price, in catalogue order. The page throws exactly when the search reaches a NULL field. |
| Catalogue.ChainIsFilter | public/js/catalogue.js:141-160 | The three chained filters equal one filter on the combined condition. |
| Catalogue.FilterProductsTotal | public/js/catalogue.js:149-157 | With every description and wood type present the page never throws. |
| Catalogue.UnfilteredShowsAll | public/js/catalogue.js:131-160 | Category "all", no search and a ceiling above every price show the whole catalogue. |
| Catalogue.TruncateText | public/js/catalogue.js:220-224 | Falsy text gives "". Text up to the limit is unchanged. Longer text is its prefix of the limit's length followed by "...". |
| Catalogue.TruncateBounded | public/js/catalogue.js:220-224 | A truncated text is at most three characters longer than the limit and than the original. |
| Catalogue.CountLabelPlural | public/js/catalogue.js:163 | The count label ends in "s" exactly when more than one product is shown, and starts with the count. |
| Catalogue.MaxPrice | public/js/catalogue.js:93 | The maximum is at least every price and is one of them. |
| Catalogue.CeilToTenEuros | public/js/catalogue.js:94 | Rounding up to ten euros gives the least multiple of 1000 cents at or above the price. |
| Catalogue.SliderCeilingBounds | public/js/catalogue.js:90-101 | The slider's ceiling is a multiple of ten euros, at least every price, and within ten euros of the dearest one. |
| Catalogue.CatalogueState.constructor | public/js/catalogue.js:7-8 | The page starts with no products, category "all", empty search, a 100 EUR ceiling and the slider as marked up. |
| Catalogue.CatalogueState.InitializePriceFilter | public/js/catalogue.js:90-101 | With products, the slider's max, value and the current ceiling become the rounded-up dearest price. Without products nothing changes. |
| Catalogue.CatalogueState.LoadProducts | public/js/catalogue.js:59-87 | Loading stores the products, takes category and search from the URL when given, and initialises the slider. |
| Catalogue.CatalogueState.SelectCategory | public/js/catalogue.js:244 | A category click sets the current category. |
| Catalogue.CatalogueState.SetSearch | public/js/catalogue.js:271 | Typing sets the search to the trimmed input. |
| Catalogue.CatalogueState.MoveSlider | public/js/catalogue.js:122-128 | Moving the slider sets its value. |
| Catalogue.CatalogueState.ResetFilters | public/js/catalogue.js:332-346 | Reset restores category "all", empty search and the slider at its max. The page then shows the catalogue filtered on price alone. |
| Catalogue.ResetAfterLoadShowsAll | public/js/catalogue.js:332-346 | After loading, a reset shows every product. |
| ClientCart.EntryImage | public/js/main.js:15-19 | A cart entry's image is the first gallery path, else `image_url`, else the placeholder. |
| ClientCart.EntryIndex | public/js/main.js:13 | The index found holds the id; -1 exactly when no entry has it. |
| ClientCart.Added | public/js/main.js:21-43 | A new product is appended as a new entry. For an existing one, that entry's quantity rises by the amount added and its stock becomes the product's, its other fields and every other entry are unchanged. |
| ClientCart.AddedKeepsIdsUnique | public/js/main.js:21-43 | Adding keeps the ids of the cart distinct. |
| ClientCart.AddedCount | public/js/main.js:87-89 | Adding a quantity raises the item count by exactly that quantity. |
| ClientCart.AddedTotalNew | public/js/main.js:83-85 | Adding a new product raises the total by its price times the quantity. |
| ClientCart.Removed | public/js/main.js:50-54 | After removal no entry has the id, and every other entry remains. |
| ClientCart.RemovedIsSubsequence | public/js/main.js:51 | Removal keeps the remaining entries in order. |
| ClientCart.RemovedCount | public/js/main.js:87-89 | With distinct ids, removal lowers the item count by exactly the removed entry's quantity. |
| ClientCart.RemovedOrder | public/js/main.js:51 | Removal keeps the ids distinct. |
| ClientCart.RefreshStock | public/js/main.js:60-69 | A known stock is kept. An unknown one takes the fetched value, and stays when the fetch fails. |
| ClientCart.Cart.constructor | public/js/main.js:7-10 | The cart starts with the stored items, or none. |
| ClientCart.Cart.AddItem | public/js/main.js:12-48 | The item is added exactly when the resulting quantity fits the stock. Then it is saved and the count rises by the quantity; otherwise nothing changes. |
| ClientCart.Cart.RemoveItem | public/js/main.js:50-54 | The entries with the id are removed and the cart is saved. |
| ClientCart.Cart.UpdateQuantity | public/js/main.js:56-81 | An unknown id changes nothing. Otherwise the stock is refreshed when unknown, and the quantity becomes at least 1 unless it exceeds a known stock. What is saved is stated. |
| ClientCart.Cart.Clear | public/js/main.js:91-95 | Clearing empties and saves the cart, so total and count are 0. |
| ClientCart.ToOrderRequest | public/js/panier.js:280-290 | The posted order carries, in cart order, each cart entry's id, name, price and quantity, which are the fields the model keeps of each entry. It also carries the four customer fields, the given amounts, the payment method and the payment id. |
| ClientCart.ZeroTotalRejected | server/routes/orders.js:45-47 | An order whose total is 0 is refused. |
| ClientCart.MissingAmountsDefaultToZero | server/routes/orders.js:51-66 | Without subtotal and shipping fields the stored order has both at 0 and keeps the posted total. |
| StripeCheckout.PaymentPayload | public/js/panier-stripe.js:306-318 | The card-payment order carries the cart, its total without shipping, no subtotal or shipping field, and the intent's id. |
| StripeCheckout.PaymentOrderHasNoShipping | public/js/panier-stripe.js:306-318 | A card-payment order is stored with shipping 0 and the bare cart total. |
| StripeCheckout.CheckoutPage.constructor | public/js/panier-stripe.js:224 | The page starts with the stored cart and no payment form. |
| StripeCheckout.CheckoutPage.Count | public/js/panier-stripe.js:202-205 | An empty cart counts 0. |
| StripeCheckout.CheckoutPage.ChangeQuantity | public/js/panier-stripe.js:172-179 | The line's quantity moves by the change but not below 1. An index out of range stores nothing. |
| StripeCheckout.CheckoutPage.RemoveFromCart | public/js/panier-stripe.js:183-196 | A confirmed removal splices out the line at the index; otherwise nothing changes. |
| StripeCheckout.RemoveAtCount | public/js/panier-stripe.js:193-195 | Splicing out a line lowers the count by its quantity. |
| StripeCheckout.CheckoutPage.ProceedToCheckout | public/js/panier-stripe.js:223-241 | An empty cart does nothing. Otherwise a payment intent is requested for the cart total. The payment form is usable once a set-up by `initializeStripe` (lines 10-74) has succeeded, and a later failed set-up leaves it usable. |
| StripeCheckout.CheckoutPage.HandlePayment | public/js/panier-stripe.js:273-345 | An order is posted exactly when the payment succeeded, with the payload above. The cart is cleared exactly when the post succeeds. |
| CartPage.Shown | public/js/panier.js:104-105 | The page shows shipping with 0 when falsy, and the total with the subtotal when falsy. |
| CartPage.SubmitPayload | public/js/panier.js:269-290 | The posted order carries the stored cart, its subtotal, and the fetched shipping and total (0 and the subtotal when none). |
| CartPage.PayloadTotalFromCalculator | public/js/panier.js:276-290 | With the calculator's answer, the posted total is its subtotal plus shipping. |
| CartPage.Page.constructor | public/js/panier.js:81 | The page starts without shipping details. |
| CartPage.Page.DisplayCartSummary | public/js/panier.js:81-105 | An empty cart shows nothing. A failed fetch falls back to free shipping and the bare subtotal. An answer is kept and shown. |
| CartPage.Page.UpdateItemQuantity | public/js/panier.js:156-180 | A quantity of 0 or less removes the entry when confirmed and otherwise changes nothing. Any other quantity gives exactly the entries and saved state of the cart's update. After a confirmed removal or an update, the kept shipping details are refreshed for the new entries. |
| CartPage.RefreshedSummaryFollowsCart | public/js/panier.js:81-101 | After the summary is refreshed, the total the order form posts follows the current entries, whatever answer was kept before: the calculator's total for their subtotal, or the subtotal on a failed request. |
| CartPage.Page.SubmitOrder | public/js/panier.js:269-310 | The stored cart is posted, and only the stored key is cleared on success. The in-memory cart stays. |
| Orders.OrNull | server/routes/orders.js:58-59 | `x \|\| null` keeps exactly the truthy values. |
| Orders.NewOrder | server/routes/orders.js:49-66 | The stored row takes the request's fields, with the falsy-field defaults written out, status "pending" and the serialised items. |
| Orders.Decrement | server/routes/orders.js:77-79 | One decrement keeps the set of products. |
| Orders.ApplyDecrements | server/routes/orders.js:77-79 | The decrements keep the set of products. |
| Orders.DecrementStock | server/routes/orders.js:77-79 | The loop applies every item's decrement in order. |
| Orders.StockDropsByOrderedQuantity | server/routes/orders.js:77-79 | A product's stock falls by exactly the total quantity ordered for it, with no floor. |
| Orders.UnorderedProductUnchanged | server/routes/orders.js:77-79 | A product not in the order keeps its stock. |
| Orders.EmailItems | server/routes/orders.js:85-89 | The e-mail lines carry each item's name, quantity and price. |
| Orders.CreationEmails | server/routes/orders.js:82-97 | The merchant gets a mail when mail and contact address are set. The customer gets a "reçue" mail when mail is set. |
| Orders.CreatePaymentIntent | server/routes/orders.js:8-27 | Without a secret key the answer is 503 and nothing is requested. Otherwise an EUR intent for card and PayPal is requested, and the answer is its client secret or 500. |
| Orders.SetStatus | server/routes/orders.js:138 | The rows with the id take the status and the others are unchanged. |
| Orders.SetStatusFinds | server/routes/orders.js:138-147 | The order found after the update is the one found before with the new status, and its snapshot parses. |
| Orders.SetStatusIdempotent | server/routes/orders.js:138 | Setting a status twice is setting it once. |
| Orders.FindOrder | server/routes/orders.js:145-152 | The order found has the id; None exactly when none has it. |
| Orders.OrderStore.constructor | server/routes/orders.js:30 | The store starts empty with the given stock. |
| Orders.OrderStore.CreateOrder | server/routes/orders.js:30-105 | A request without name, e-mail, items or a non-zero total gets 400 and changes nothing. Otherwise the row is appended under the next id, the stock is decremented and the mails are sent. |
| Orders.OrderStore.Listing | server/routes/orders.js:108-127 | The admin gets every order once, newest first, each with its items parsed back. Without a session the answer is 401. |
| Orders.OrderStore.UpdateStatus | server/routes/orders.js:130-157 | 401 without a session. Otherwise the status is written, and the mail is exactly the customer email for the order found, its address, the lines of its stored snapshot and the new status; none for an unknown id or no status. |
| OrderItems.EscapeThen | server/routes/orders.js:49 | Escaping never shortens a string. |
| OrderItems.StringRoundTrip | server/routes/orders.js:49 | Parsing an escaped string and its closing quote gives the string back. |
| OrderItems.LiteralOf | server/routes/orders.js:49 | A literal prefix is read off exactly. |
| OrderItems.Serialize | server/routes/orders.js:49 | The snapshot is a JSON array text. |
| OrderItems.ItemRoundTrip | server/routes/orders.js:49 | One serialised item parses back to itself. |
| OrderItems.ElementsStep | server/routes/orders.js:119-123 | After an item and a comma, the rest of the list is parsed. |
| OrderItems.ElementsLast | server/routes/orders.js:119-123 | An item followed by "]" ends the list. |
| OrderItems.ElementsRoundTrip | server/routes/orders.js:49 | A serialised non-empty list parses back to itself. |
| OrderItems.ParseSerialize | server/routes/orders.js:119-123 | `JSON.parse(JSON.stringify(items))` gives the items back. |
| OrderItems.SerializeInjective | server/routes/orders.js:49 | Two item lists with the same snapshot are equal. |
| Email.MerchantLine | server/services/email.js:13-15 | A merchant line shows the interpolated product name, the quantity and the price. |
| Email.CustomerLine | server/services/email.js:173-175 | A customer line shows the product name, else the name. |
| Email.MerchantLines | server/services/email.js:13-15 | One line per item, in order. |
| Email.CustomerLines | server/services/email.js:173-175 | One line per item, in order. |
| Email.OrderNotification | server/services/email.js:6-92 | A mail exists exactly when the key and the contact address are set. It goes to the contact address with the order's subject and lines. |
| Email.ContactNotification | server/services/email.js:94-164 | A mail exists exactly when the key and the contact address are set. It goes to the contact address, naming the sender. |
| Email.StatusWord | server/services/email.js:177-212 | A status has a word exactly when it is pending, confirmed or shipped. |
| Email.CustomerSubject | server/services/email.js:183 | The customer subject starts with "Commande #". |
| Email.CustomerOrderEmail | server/services/email.js:166-280 | A mail exists exactly when the key is set and the status has a word. It goes to the customer with that subject and the lines. |
| Email.CustomerSubjectParses | server/services/email.js:183-203 | The order id is read back from the subject. |
| Email.CustomerSubjectInjective | server/services/email.js:177-212 | Distinct orders or statuses give distinct subjects. |
| AdminRoutes.CheckUploads | server/routes/admin.js:19-31 | The upload passes exactly when there are at most ten files, each an image by type and by extension (read as `path.extname` reads it, so "..png" has ".png") and at most 5 MB. Then each path is `/images/products/` plus its stored name; otherwise 400. |
| AdminRoutes.StoredPath | server/routes/admin.js:146 | A stored upload lives under /images/products/. |
| Text.ExtnameOfTail | server/routes/admin.js:25 | As `path.extname` does, a non-empty base followed by a dot and a dot-free tail has the extension "." + tail, leading dots included ("..png" gives ".png"); only ".." has none. |
| AdminRoutes.DotFileRefused | server/routes/admin.js:25 | Any file whose name has no dot after its first character (".png", "photo") has no extension and is refused, whatever its type. |
| AdminRoutes.UnanchoredExtensionAccepted | server/routes/admin.js:23-28 | Any upload whose name is a non-empty base, a dot and an extension that merely contains one of the five image words (".webpage", "..xpngx"), whose type contains one and whose size fits, passes the filter. |
| AdminRoutes.WordInExtension | server/routes/admin.js:23-25 | An extension that holds one of the five image words anywhere still matches the unanchored pattern after lower-casing. |
| AdminRoutes.Login | server/routes/admin.js:43-78 | 400 without both credentials. 401 for an unknown user. For the first matching user, success exactly when the password matches, and the session then holds that admin's id. Failures leave the session. |
| AdminRoutes.CheckSession | server/routes/admin.js:89-98 | Authenticated exactly when the session holds a non-zero admin id. |
| AdminRoutes.Logout | server/routes/admin.js:80-87 | As written: always 500, and the session is left as it was. |
| AdminRoutes.LoggedOutAdminStillAdmin | server/routes/admin.js:80-87 | An admin who logs out is still authenticated afterwards. |
| AdminRoutes.LogoutIntended | server/routes/admin.js:80-87 | Intended: success, and the session is emptied. |
| AdminRoutes.IntendedLogoutEndsSession | server/routes/admin.js:80-98 | After the intended logout, check-session answers not authenticated and the admin gate refuses, whatever the session held. |
| AdminRoutes.FirstImageRows | server/routes/admin.js:145-158 | Upload k becomes a row with display order k+1, primary only for the first. |
| AdminRoutes.AppendedImageRows | server/routes/admin.js:227-233 | Appended uploads take consecutive orders from the start, none primary. |
| AdminRoutes.MaxDisplayOrder | server/routes/admin.js:221 | MAX is NULL exactly without rows; otherwise it is an attained upper bound. |
| AdminRoutes.StartOrder | server/routes/admin.js:222 | The start order exceeds every existing order of the product. |
| AdminRoutes.InsertFirstImages | server/routes/admin.js:145-158 | The loop appends exactly the first-image rows. |
| AdminRoutes.InsertAppendedImages | server/routes/admin.js:227-233 | The loop appends exactly the appended rows. |
| AdminRoutes.FirstRowsSorted | server/routes/admin.js:145-158 | The first-image rows are in display order. |
| AdminRoutes.AppendedRowsSorted | server/routes/admin.js:227-233 | Appended rows are in display order and carry the uploads' paths. |
| AdminRoutes.NoOwnRows | server/routes/products.js:8-13 | A product with no rows has an empty gallery. |
| AdminRoutes.CreatedGalleryInUploadOrder | server/routes/admin.js:145-158 | A new product's gallery lists its uploads in upload order. |
| AdminRoutes.AppendedGalleryAfterExisting | server/routes/admin.js:221-233 | After an update the gallery is the old gallery followed by the new uploads. |
| AdminRoutes.LowestOrderImage | server/routes/admin.js:352-355 | The promoted candidate is a row of the product with the lowest display order; None exactly when no row remains. |
| AdminRoutes.SetPrimary | server/routes/admin.js:358-361 | Only the row with the id becomes primary. |
| AdminRoutes.SetImageUrl | server/routes/admin.js:364-372 | Only the product with the id takes the URL. |
| AdminRoutes.UpdateRows | server/routes/admin.js:205-211 | The rows with the id take the form's fields and keep image_url and created_at. |
| AdminRoutes.DeleteImageTables | server/routes/admin.js:331-381 | 404 exactly for an unknown image. Otherwise no row keeps the id. |
| AdminRoutes.DeleteSecondaryImage | server/routes/admin.js:376-378 | Deleting a non-primary image only removes its row. |
| AdminRoutes.DeletePrimaryImage | server/routes/admin.js:350-372 | Deleting the primary promotes the lowest-order remaining image and copies its path to image_url, or sets image_url to NULL. |
| AdminRoutes.ApplyImageOrder | server/routes/admin.js:396-398 | Only the row with the entry's id takes its order and flag. |
| AdminRoutes.ApplyImageOrders | server/routes/admin.js:395-399 | The updates keep every row's id, product and path. |
| AdminRoutes.PathOf | server/routes/admin.js:406 | The path found belongs to a row with the id; None exactly when none has it. |
| AdminRoutes.PathOfSameRows | server/routes/admin.js:406 | Order updates do not change path lookups. |
| AdminRoutes.PrimaryPath | server/routes/admin.js:405-409 | The copied path is that of an entry marked primary. |
| AdminRoutes.ReorderRows | server/routes/admin.js:395-419 | The loop applies the entries in order and finds the primary path. |
| AdminRoutes.ReorderSetsListed | server/routes/admin.js:396-398 | With distinct ids, each listed image ends with its given order and flag. |
| AdminRoutes.ReorderKeepsUnlisted | server/routes/admin.js:396-398 | An unlisted image keeps its row. |
| AdminRoutes.RevenueDropsWhenShipped | server/routes/admin.js:441-442 | Shipping a confirmed order takes its amount out of the revenue. |
| AdminRoutes.StatsAsWritten | server/routes/admin.js:429-452 | The figures count products and orders, sum confirmed totals, and count stock exactly 0 as out of stock. |
| AdminRoutes.OversoldProductUncounted | server/routes/admin.js:445 | A product at stock -1 is hidden from the listing, yet not counted out of stock. |
| AdminRoutes.AsWrittenCountsMissOversold | server/routes/admin.js:445 | With the `stock = 0` count, out of stock plus listable is at most every product, and equals it exactly when no stock is negative. |
| AdminRoutes.DashboardFigures | server/routes/admin.js:429-452 | As written, but counting stock at most 0 as out of stock. |
| AdminRoutes.OutOfStockComplementsListing | server/routes/admin.js:445 | With the corrected count, out of stock plus listable equals all products. |
| AdminRoutes.ProductTables.constructor | server/routes/admin.js:113 | The tables start empty with counters at 1. |
| AdminRoutes.ProductTables.CreateProduct | server/routes/admin.js:113-127 | 401, then 400 for a refused upload. Every other request fails at `db.serialize`, which the database wrapper lacks, and answers 500: no request creates a product. |
| AdminRoutes.ProductTables.CreateProductIntended | server/routes/admin.js:125-187 | The corrected route: 401 and 400 as written, otherwise it appends the product (image_url the first upload), its image rows and the counters, and answers the id and the image count. |
| AdminRoutes.ProductTables.UpdateProduct | server/routes/admin.js:193-257 | 401, then 400. Otherwise the rows with the id take the form, and the uploads are appended from max+1, even for an unknown id. |
| AdminRoutes.ProductTables.DeleteProduct | server/routes/admin.js:260-274 | 401, or the product's row goes and its image rows stay. |
| AdminRoutes.ProductTables.DeleteImage | server/routes/admin.js:331-381 | 401, or the table transition above. Failures change nothing. |
| AdminRoutes.ProductTables.ReorderImages | server/routes/admin.js:384-426 | 401, then 400 without an array. An empty array answers nothing. Otherwise the entries are applied and image_url takes the primary path when truthy. |
| AdminRoutes.ProductTables.Listing | server/routes/admin.js:313-328 | The admin list is every product newest first, each enriched unless its lookup fails. |
| AdminRoutes.ProductTables.Stats | server/routes/admin.js:429-452 | 401 without a session. Otherwise the figures as written; out of stock plus listable is every product exactly when no product is oversold. |
| ContactRoutes.NewContact | server/routes/contact.js:23-25 | The stored row has the form's name, e-mail and message and status "nouveau". |
| ContactRoutes.PhoneAndSubjectNotStored | server/routes/contact.js:16-25 | Phone and subject do not affect the stored row. |
| ContactRoutes.WithStatus | server/routes/contact.js:76 | Only the rows with the id take the status. |
| ContactRoutes.WithStatusIdempotent | server/routes/contact.js:76 | Setting a status twice is setting it once. |
| ContactRoutes.ContactInbox.constructor | server/routes/contact.js:15 | The inbox starts empty. |
| ContactRoutes.ContactInbox.Submit | server/routes/contact.js:15-49 | 400 without name, e-mail or message, changing nothing. Otherwise the row is appended under the next id and the notification is sent. |
| ContactRoutes.ContactInbox.List | server/routes/contact.js:52-64 | The admin gets every message once, newest first. |
| ContactRoutes.ContactInbox.SetStatus | server/routes/contact.js:67-90 | 401, then 400 without a status, or the status is written. |
| ContactRoutes.ContactInbox.Delete | server/routes/contact.js:93-105 | 401, or the rows with the id go. |
| ContactRoutes.SubsequenceKeepsIncreasingIds | server/routes/contact.js:96 | Deleting keeps the ids increasing. |
| ContactRoutes.DeleteRemovesOnly | server/routes/contact.js:96 | Deletion keeps the order, and a row stays exactly when its id differs. |
| SettingsRoutes.Folded | server/routes/settings.js:21-24 | Every key appears in the settings object. |
| SettingsRoutes.FoldedKeys | server/routes/settings.js:21-24 | Only the table's keys appear. |
| SettingsRoutes.FoldedValues | server/routes/settings.js:21-24 | With distinct keys each key maps to its row's value. |
| SettingsRoutes.FoldSettings | server/routes/settings.js:21-24 | The loop builds the folded object. |
| SettingsRoutes.FoldedReplace | server/routes/settings.js:35-39 | Replacing a row's value updates just that key. |
| SettingsRoutes.UpsertSetsOnlyKey | server/routes/settings.js:35-39 | The upsert keeps keys distinct and changes only its key's value. |
| SettingsRoutes.GivenName | server/routes/settings.js:70-72 | A category name is accepted exactly when truthy and not blank, and is then trimmed. |
| SettingsRoutes.ProductsUsing | server/routes/settings.js:102-104 | An unknown category has no products. |
| SettingsRoutes.ReferenceTables.constructor | server/routes/settings.js:14 | The tables start empty. |
| SettingsRoutes.ReferenceTables.PutSetting | server/routes/settings.js:31-48 | 401, or the key is upserted and the settings object changes at that key only. |
| SettingsRoutes.ReferenceTables.ListCategories | server/routes/settings.js:53-64 | The categories come sorted by name, each once. |
| SettingsRoutes.ReferenceTables.AddCategory | server/routes/settings.js:67-95 | 401 first. Then 400 for a blank name or a name already used. The insert happens exactly otherwise, under the next id. |
| SettingsRoutes.ReferenceTables.DeleteCategory | server/routes/settings.js:98-133 | 401 first. Then 400 when products use it, then 404 when unknown. The deletion happens exactly otherwise. |
| SettingsRoutes.KeptCategoriesValid | server/routes/settings.js:117 | Deletion keeps names distinct and ids increasing. |
| BoutiqueRoutes.StoredPaths | server/routes/boutique.js:59-60 | The stored paths, in row order. |
| BoutiqueRoutes.MaxOrder | server/routes/boutique.js:63 | MAX is NULL exactly without rows; otherwise it is an attained upper bound. |
| BoutiqueRoutes.NextOrder | server/routes/boutique.js:63-64 | The next order is 1 for an empty table. It exceeds every order, except that a maximum of 0 also restarts at 1. |
| BoutiqueRoutes.GalleryPaths | server/routes/boutique.js:67-77 | Each file maps to its /images/boutique/ path. |
| BoutiqueRoutes.ImageFileAfterAnyBase | server/routes/boutique.js:53-56 | Any non-empty base followed by one of the five extensions, in any case, is imported by the sync: "..png" and ".a.JPG" included. |
| BoutiqueRoutes.SyncRows | server/routes/boutique.js:67-77 | Missing files become rows with consecutive ids and orders. |
| BoutiqueRoutes.MissingPathsSnoc | server/routes/boutique.js:67-77 | A further file adds its path exactly when it is not stored. |
| BoutiqueRoutes.SyncRowsSnoc | server/routes/boutique.js:67-77 | The rows grow one file at a time. |
| BoutiqueRoutes.ImportFiles | server/routes/boutique.js:67-81 | The import loop adds exactly the missing paths and counts them. |
| BoutiqueRoutes.ImportStep | server/routes/boutique.js:67-77 | One loop step inserts iff the path is still missing. |
| BoutiqueRoutes.SyncStoresAll | server/routes/boutique.js:67-77 | After the import every image file of the directory is stored. |
| BoutiqueRoutes.SyncCoversDirectory | server/routes/boutique.js:53-77 | Every file with an image extension is stored after a listing. |
| BoutiqueRoutes.SyncIdempotent | server/routes/boutique.js:67-77 | Listing twice imports nothing the second time. |
| BoutiqueRoutes.SyncAppendsNewImages | server/routes/boutique.js:67-77 | The import keeps the old rows and adds only new paths from the directory. |
| BoutiqueRoutes.SetOrder | server/routes/boutique.js:169-174 | Only the row with the id takes the order. |
| BoutiqueRoutes.ApplyOrders | server/routes/boutique.js:169-174 | The reorder keeps ids and paths. |
| BoutiqueRoutes.ApplyOrdersSetsListed | server/routes/boutique.js:169-174 | With distinct ids each listed image ends with its order. |
| BoutiqueRoutes.ApplyOrdersKeepsUnlisted | server/routes/boutique.js:169-174 | An unlisted image keeps its row. |
| BoutiqueRoutes.Gallery.constructor | server/routes/boutique.js:44 | The gallery starts empty. |
| BoutiqueRoutes.Gallery.Images | server/routes/boutique.js:44-92 | With a readable directory the missing image files are imported. The listing is every row, sorted by order. |
| BoutiqueRoutes.Gallery.Add | server/routes/boutique.js:95-123 | 401 first. A refused file gives 500, no file 400. Otherwise one row is appended at the next order. |
| BoutiqueRoutes.Gallery.Delete | server/routes/boutique.js:126-157 | 401, then 404 for an unknown id. Otherwise the row goes, whether or not the file unlink fails. |
| BoutiqueRoutes.Gallery.Reorder | server/routes/boutique.js:160-181 | 401, then 400 without an array. Otherwise the entries are applied. |
| AdminPage.Renumbered | public/js/admin.js:217-219 | Images are renumbered from the base, only the first primary. |
| AdminPage.Ids | public/js/admin.js:217-219 | The ids, in order. |
| AdminPage.RenumberedKeepsImages | public/js/admin.js:217-219 | Renumbering keeps ids and paths and leaves the images in display order. |
| AdminPage.RenumberedTwice | public/js/admin.js:217-219 | Renumbering twice is renumbering once. |
| AdminPage.Renumber | public/js/admin.js:217-219 | The loop renumbers. |
| AdminPage.Moved | public/js/admin.js:208-234 | A move keeps the number of images. |
| AdminPage.MoveAndBack | public/js/admin.js:208-234 | A move swaps the two images, and moving back restores the order. |
| AdminPage.DeletionNumbersFromZero | public/js/admin.js:253-264 | After a deletion the first image has order 0 and is primary. |
| AdminPage.SaveImageOrderBody | public/js/admin.js:404-410 | The body carries each image's id, order and flag. |
| AdminPage.SavedOrderMatchesPage | public/js/admin.js:397-420 | Saving the page sets every server row to its 1-based page position, and only the first is primary. |
| AdminPage.PositionsBody | public/js/admin.js:1247-1249 | The body gives each image its 1-based position. |
| AdminPage.Positioned | public/js/admin.js:1253-1255 | Each image takes its 1-based position. |
| AdminPage.BoutiqueMoveAgrees | public/js/admin.js:1216-1257 | The server ends up with the page's positions. |
| AdminPage.VisibleOrders | public/js/admin.js:481-495 | Hiding delivered orders keeps exactly the not-delivered ones, in order. |
| AdminPage.HidingDeliveredKeepsPending | public/js/admin.js:493-495 | Hiding delivered orders keeps every pending one. |
| AdminPage.MarkingReadDecrementsBadge | public/js/admin.js:752-753 | Marking an unread message read lowers the badge by one. |
| AdminPage.PageState.constructor | public/js/admin.js:6-9 | The page starts with empty lists. |
| AdminPage.PageState.EditProduct | public/js/admin.js:120-135 | A product that is not in the listed products changes nothing. Otherwise the editor shows the product's images sorted by order, or none when the fetch fails, and no new files. |
| AdminPage.PageState.MoveExistingImage | public/js/admin.js:208-234 | Moving swaps and renumbers; a move out of range changes nothing. |
| AdminPage.PageState.DeleteExistingImage | public/js/admin.js:237-273 | A confirmed, successful deletion removes the image and renumbers from 0; otherwise nothing changes. |
| AdminPage.PageState.MoveNewImage | public/js/admin.js:322-337 | Moving a pending upload swaps it and keeps the same files. |
| AdminPage.PageState.RemoveNewImage | public/js/admin.js:340-343 | The pending upload at the index is spliced out. |
| AdminPage.PageState.MoveBoutiqueImage | public/js/admin.js:1215-1257 | An unknown id or a move out of range sends nothing. Otherwise the swapped positions are sent; the page keeps them, or reloads when the request fails. |
| MessageRoutes.ThreadTag | server/routes/messages.js:269 | The tag read from a subject: the first `[#THREAD-n]`, or none. |
| MessageRoutes.TagStartOfTag | server/routes/messages.js:269 | A tag at the front of a text reads back as its id. |
| MessageRoutes.TagStartBeforeSpace | server/routes/messages.js:269 | A tag match is not affected by what follows a space. |
| MessageRoutes.FindTagFirst | server/routes/messages.js:269 | The search returns the first match. |
| MessageRoutes.FindTagNone | server/routes/messages.js:269 | There is no match exactly when no position holds a tag. |
| MessageRoutes.FindTagSome | server/routes/messages.js:269 | A match sits at some position, with none before it. |
| MessageRoutes.ThreadTagNone | server/routes/messages.js:269 | A subject has no tag exactly when it is untagged. |
| MessageRoutes.ReplySubjectRoundTrip | server/routes/messages.js:180-183 | The reply subject of an untagged subject reads back as the thread's id. |
| MessageRoutes.NoBracketUntagged | server/routes/messages.js:269 | A text without "[" is untagged. |
| MessageRoutes.NewThreadSubjectUntagged | server/routes/messages.js:271-283 | A new thread's subject is untagged. |
| MessageRoutes.CloseAngle | server/routes/messages.js:275-277 | The match closes at the first ">" on the same line. |
| MessageRoutes.AngleAt | server/routes/messages.js:275-277 | A match is a "<", at least one character and a ">". |
| MessageRoutes.FirstAngle | server/routes/messages.js:275-277 | The first match from a position. |
| MessageRoutes.NameOr | server/routes/messages.js:277 | `name \|\| fallback`. |
| MessageRoutes.CloseAngleAt | server/routes/messages.js:275-277 | The first ">" without a line break before it closes the match. |
| MessageRoutes.FirstAngleAt | server/routes/messages.js:275-277 | The first "<" with a close is the match. |
| MessageRoutes.FirstAngleNone | server/routes/messages.js:275-277 | Without "<" there is no match. |
| MessageRoutes.SenderOfNamedAddress | server/routes/messages.js:275-277 | `Name <address>` gives that address and the trimmed name. |
| MessageRoutes.SenderOfBareAddress | server/routes/messages.js:275-277 | A bare address is both the address and the trimmed name. |
| MessageRoutes.InboundBody | server/routes/messages.js:288-291 | The body is the text, else the HTML, else "". |
| MessageRoutes.Updated | server/routes/messages.js:108-111 | Only the thread with the id is updated. |
| MessageRoutes.UpdatedKeepsIdentity | server/routes/messages.js:164-168 | Updates keep a thread's id, subject and customer. |
| MessageRoutes.ViewingClearsUnread | server/routes/messages.js:57-58 | After viewing, no message is unread. |
| MessageRoutes.AnsweringClearsUnread | server/routes/messages.js:164-168 | After a reply, no message is unread. |
| MessageRoutes.NewMessageUnread | server/routes/messages.js:57-58 | A new message raises the unread count by one exactly when it is an unread customer message. |
| MessageRoutes.Summaries | server/routes/messages.js:52-70 | Each thread is listed with its unread count. |
| MessageRoutes.AppendMessageValid | server/routes/messages.js:146-149 | Appending a message under the next id keeps the table valid. |
| MessageRoutes.AppendThreadValid | server/routes/messages.js:280-283 | Appending an untagged thread under the next id keeps the table valid. |
| MessageRoutes.UpdatedValid | server/routes/messages.js:164-168 | Updates keep the table valid. |
| MessageRoutes.MessageStore.constructor | server/routes/messages.js:52 | The store starts empty with counters at 1. |
| MessageRoutes.MessageStore.ListThreads | server/routes/messages.js:52-70 | 401, or every thread once, latest message first, with its unread count. |
| MessageRoutes.MessageStore.ThreadMessages | server/routes/messages.js:73-101 | 401, or exactly the thread's messages, oldest first; an unknown thread gives []. |
| MessageRoutes.MessageStore.MarkRead | server/routes/messages.js:104-118 | 401, or the thread's viewed time is set. |
| MessageRoutes.MessageStore.Reply | server/routes/messages.js:125-255 | 401 first, then 400 for a blank message, then 404 exactly for an unknown thread. Otherwise the admin message is appended and the thread answered. A mail with the tagged subject goes out exactly when mail is configured. |
| MessageRoutes.MessageStore.Inbound | server/routes/messages.js:262-330 | An untagged mail opens a new thread with its message. A tag naming no thread gives 404. A tagged mail adds to its thread and reopens it. A missing sender gives 500. Failures change nothing. |
| MessageRoutes.MessageStore.SetThreadStatus | server/routes/messages.js:337-353 | 401, then 400 unless "open" or "closed", or the status is set. |
| MessageRoutes.MessageStore.DeleteThread | server/routes/messages.js:356-368 | 401, or the thread goes and its messages stay. |

## Left out

Rendering, I/O and external services:
- Rendering: the DOM, the HTML of pages and mails, notifications and styles. Only the values they display are modelled.
- External state and services become parameters or outcomes: the browser's local storage, `fetch` answers, the Stripe client and gateway, the Resend mail API, bcrypt's comparison, the clock and the file system.
- The login's database error (500) and every `db` error path that answers 500 are not modelled. The model has no failing database.
- The session cookie's admin username (`req.session.adminUsername`, which check-session echoes) is not modelled. The session holds only the admin id.

Numbers:
- Floating point: prices and amounts are integer cents, so `toFixed(2)`, `parseFloat` and the `Math.round(amount * 100)` of the payment intent are exact.
- `parseInt` precision for very large ids is not modelled.

Text:
- SQLite's LIKE wildcards inside a search term are not modelled.
- Case folding is ASCII only.
- Cart entries hold seven fields (public/js/main.js:35-43), and both checkout pages post them whole. The server stores all seven with `JSON.stringify(items)`. The model keeps only id, name, price and quantity. It drops image_url, wood_type and stock from the posted order and from its stored snapshot. The snapshot's JSON escapes only `"` and `\`.
- Catalogue.TruncateText: lengths and the cut count code points. The source's `text.length` and `substring` count UTF-16 code units, so text with characters outside the Basic Multilingual Plane is cut at a different place, and the source can split a surrogate pair.

Concurrency:
- Callbacks run in program order.
- AdminRoutes.ProductTables.ReorderImages: the model sets image_url to the primary entry's path, as the route intends. In the source the path's lookup is dispatched inside an update's callback, so it cannot finish before that callback's own completion check. When the primary is the last listed entry, which includes every one-entry reorder, image_url is therefore never updated. If the queries complete first-in-first-out it is never updated at all.
- When the reorder array is empty, the source never answers. The model returns no answer.

Fields that are not modelled:
- `perlouze_link`, `updated_at` and the random part of stored file names.
- The directory part of a path given to `path.extname`.
- Deleted files on disk.
- Message attachments and their table.
- The `resend_email_id` update.
- The last message and last sender columns of the thread list.
- The migrations and the schema.

Modelling choices:
- MessageRoutes.IsUnread: `COALESCE(admin_last_viewed_at, epoch)` is modelled as "a thread never viewed counts every customer message".
- MessageRoutes.MessageStore.DeleteThread: foreign keys are not enabled anywhere in the source, so deleting a thread leaves its messages. In the same way, deleting a product leaves its image rows.
- BoutiqueRoutes.Gallery.Add: an upload refused by the file filter goes to the error handler. The model gives 500.

Out of scope:
- `server.js`, `server/routes/config.js` and `public/js/modal.js` are not part of this model.

Behaviour kept as the code has it:
- MessageRoutes.MessageStore.Inbound: an inbound mail whose tag names no thread is answered 404 and opens no thread.
- ContactRoutes.ContactInbox.Submit: the contact form stores a contact row and creates no message thread.

## Findings

| source | as written | input that shows it | evidently intended | confidence | as-written member | corrected member |
|---|---|---|---|---|---|---|
| server/routes/admin.js:445 | The out-of-stock figure counts products whose stock is exactly 0. Orders decrement stock without a floor (server/routes/orders.js:77-79), and the public listing hides stock <= 0 (server/routes/products.js:47). | A product with stock -1: hidden from the listing, and `outOfStock` is 0. | Count every product that cannot be listed (stock <= 0), so that out-of-stock plus listable is every product. | not executed | AdminRoutes.OversoldProductUncounted | AdminRoutes.OutOfStockComplementsListing |
| server/routes/admin.js:125 | The create handler starts with `db.serialize(...)`, but `db` is the wrapper of server/models/database.js:15-86, which has only `all`, `get`, `run` and `close`. The call throws a TypeError, Express answers 500 and nothing is inserted. | An admin session and one accepted upload: the answer is 500 and the products table is unchanged. | Insert the product, then one image row per upload with display order k+1, the first primary, and set image_url to the first path, as AdminRoutes.ProductTables.CreateProductIntended does. | not executed | AdminRoutes.ProductTables.CreateProduct | AdminRoutes.CreatedGalleryInUploadOrder |
| server/routes/admin.js:81 | The logout handler calls `req.session.destroy`. The session comes from cookie-session (server.js:48-55), which has no `destroy`. The call throws a TypeError, Express answers 500, and the session cookie is left unchanged. | An admin session posting to /api/admin/logout: the answer is 500 and check-session still answers authenticated. | Empty the session (`req.session = null`) and answer success. | not executed | AdminRoutes.LoggedOutAdminStillAdmin | AdminRoutes.IntendedLogoutEndsSession |
