# BayPro storefront — a verified model of its core

BayPro is a parts storefront with two halves. One half is a PHP API over MySQL: products, categories, vendors, auth, the user profile, orders and a PayFast payment bridge. The other half is a React client: cart, checkout, search, product pages, vendor pages and the auth session. This project models the logic of both halves in Dafny and proves what that logic promises:

- **Checkout** (`Orders`): the first loop checks every cart line against the live product rows and prices it; then come the shipping, tax and total formula and the order number. The second loop inserts one `order_items` row per line and decrements stock. Any failure leaves the tables unchanged. `index` and `show` format the stored rows.
- **Bearer tokens** (`Jwt`, `Base64`):
  - unpadded base64url, with its round trip proved over a concrete alphabet;
  - the three-segment token and its HMAC signature;
  - the expiry check and the role gates.
- **Payment** (`Payment`): the PayFast field list, the `key=urlencode(value)&…` signing string built by its loop, and the notification as a small state machine over the order rows.
- **Catalog** (`Products`, `Categories`): the WHERE/params builder, sorting, pagination, `formatProduct` (absolute image URLs, the legacy image, decoded JSON columns with defaults), category slugs and product counts.
- **Vendor, auth and profile** (`Vendor`, `Auth`, `User`, `Sql`):
  - product creation with its defaults and uploads;
  - the allowlisted UPDATE builders and ownership checks;
  - the compatibility-list parser;
  - registration, login and `me`, and the profile update.
- **Client** (`CartContext`, `CartPage`, `CheckoutPage`, `AuthPage`, `AuthContext`, `Forms`, `SearchPage`, `ProductDetailPage`, `AddProductPage`, `ProductCard`, `BottomNavigation`, `OrdersPage`, `VendorSales`):
  - the cart and its totals, proved to agree with the server's totals;
  - zod-style validation and the field-error map;
  - the session state machine;
  - search filtering and filter chips;
  - carousel and quantity arithmetic, and form list edits;
  - navigation tabs and badges, and the order and sales summaries.

The code takes the source's own form:
- Where the source changes state step by step, the model is imperative. `Tables.Database` is a class whose fields are the tables and the AUTO_INCREMENT counters. Its `Valid()` says every row id lies below its table's counter and every product is keyed by its own id; every endpoint that writes requires and keeps it. `CartContext.Cart`, `AuthContext.Session`, `CheckoutPage.CheckoutForm`, `AuthPage.AuthForm`, `SearchPage.SearchState` and `AddProductPage.ProductForm` hold the client state.
- Loops are methods with invariants, each proved against a specification function: `Orders.PriceCart`, `Orders.WriteItems`, `Payment.ParamString`, `Products.BuildFilters`, `Products.AbsolutizeUrls` (in place on an array), `Vendor.StoreUploads` and `Forms.FieldErrors`.
- Pure code is datatypes, functions and lemmas.

Foreign primitives are parameters of the operations that use them:
- HMAC-SHA256, md5, `json_encode`/`json_decode`, `password_hash`/`password_verify`, `number_format`;
- `time()`, `date()`, `rand()`, `Date.now()`, `URL.createObjectURL`;
- the email check of zod and the file mover.

`Jwt.Primitives` and `Products.JsonDecoders` bundle some of them. Money is exact (`real`). A table is a `seq` of rows, except products, which is a `map` from id to row.

Some behaviours of the source are worth knowing:
- **Tokens at their expiry.** A token is accepted at the very second of its `exp` (`Jwt.VerifyGenerated`). Section 4.1.4 of RFC 7519 rejects a token on or after its expiry time. The code's `$payload['exp'] < time()` is modelled as written.
- **Zero sale price.** The client prices a line with `sale_price || price` and the server with `sale_price ?? price`. They agree unless a sale price is exactly zero. Then the cart shows the list price and checkout charges nothing (`CartContext.TotalsAgreeWithCheckout`, `CartContext.ZeroSalePriceDisagrees`).
- **Negative sale price.** It counts as a discount on the product card, and the badge can exceed 100 % (`ProductCard.NegativeSaleOver100`).
- **Cart item ids.** A new cart item's id is `Date.now()`, a parameter here. Two items added in the same millisecond share an id, and then `updateQuantity`/`removeFromCart` act on both. The cart lemmas are stated per id, so they hold in that case too.
- **Unknown payment statuses.** The notification handler ignores every status except COMPLETE and CANCELLED, and still answers 200 "OK" (`Payment.Callback`).

## Model

| member | source | states |
|---|---|---|
| Orders.ActiveProduct | php-api/controllers/orders.php:135-137 | the lookup finds a row exactly when the id is a product whose `is_active` flag is set, and then it is that product |
| Orders.PrimaryImageSpec | php-api/controllers/orders.php:154-156 | the image query finds nothing exactly when the product has no primary image row; otherwise the URL of its first primary row |
| Orders.UnitPrice | php-api/controllers/orders.php:149 | the unit price is the sale price whenever that column is non-null (even 0), else the list price |
| Orders.CheckLineSpec | php-api/controllers/orders.php:134-168 | one cart line: 404 "Product #id not found" for a missing or inactive product, 400 "Insufficient stock for name" when the stock it is checked against is short, and otherwise a priced line with the product's vendor, name, image, unit price and total = price × quantity |
| Orders.PriceLines | php-api/controllers/orders.php:134-168 | an accepted cart yields one line per cart line, for the same product ids, all of them existing products |
| Orders.PriceLinesSpec | php-api/controllers/orders.php:134-168 | every accepted line comes from an active product at its unit price, with its quantity and total; as written, each quantity fits the stored stock |
| Orders.PriceLinesPrefixErr | php-api/controllers/orders.php:139-147 | once a prefix of the cart fails, the whole checkout fails with that same error (the first failing line decides) |
| Orders.PriceLinesStep | php-api/controllers/orders.php:134-168 | one loop iteration: the line's error ends the checkout, or its priced line is appended and its total added to the subtotal |
| Orders.PriceLinesAsWrittenOk | php-api/controllers/orders.php:144 | as written, a cart is accepted if and only if every line, on its own, names an active product whose stored stock covers its quantity |
| Orders.SubtotalOfPriced | php-api/controllers/orders.php:149-151 | the accumulated subtotal equals the sum over cart lines of unit price × quantity |
| Orders.Shipping | php-api/controllers/orders.php:170 | shipping is 0 exactly when the subtotal is above 500, and 50 otherwise |
| Orders.OrderTotals | php-api/controllers/orders.php:170-172 | the stored totals: shipping, tax of 15 % and total = subtotal + shipping + tax, never below a non-negative subtotal |
| Orders.OrderNumberParts | php-api/controllers/orders.php:175 | an order number splits on '-' into "BP", the year and a five-digit field whose value is the random draw |
| Orders.RandField | php-api/controllers/orders.php:175 | `str_pad(rand(1, 99999), 5, '0', STR_PAD_LEFT)` is five digits whose value is the draw |
| Orders.ItemRows | php-api/controllers/orders.php:196-211 | one `order_items` row per priced line, in order, with consecutive ids and the line's product, vendor, name, image, quantity, price and total |
| Orders.ApplyDecrements | php-api/controllers/orders.php:213-214 | the stock updates add and remove no key of the products table |
| Orders.DecrementsKeepIds | php-api/controllers/orders.php:213-214 | the stock updates change no product's id |
| Orders.DecrementsSpec | php-api/controllers/orders.php:213-214 | each product's stock drops by exactly the total quantity the lines take of it, and nothing else about any product changes |
| Orders.CheckoutLines | php-api/controllers/orders.php:119-125 | 401 without a token, 422 "Items and shipping address are required" without items or address, else the outcome of pricing the cart |
| Orders.PriceCart | php-api/controllers/orders.php:131-168 | the loop's outcome is `PriceLines` of the cart and, on success, its subtotal is the sum of the line totals |
| Orders.WriteItems | php-api/controllers/orders.php:196-215 | the loop appends exactly `ItemRows` of the lines, applies exactly their stock decrements and allocates one item id per line |
| Orders.WriteLine | php-api/controllers/orders.php:197-214 | one iteration inserts the line's row under the next id and takes its quantity off its product's stock, if that product exists |
| Orders.WriteStep | php-api/controllers/orders.php:196-215 | the item rows and stock decrements of one more line extend those of the lines before it |
| Orders.Checkout | php-api/controllers/orders.php:118-235 | it fails exactly when `CheckoutLines` does, with that error and no write; otherwise it inserts one pending PayFast order with the computed totals and number and both timestamps set to now, writes the item rows and decrements, and returns id, number, total and "pending" |
| Orders.InsertOrder | php-api/controllers/orders.php:178-215 | the order row is appended under the next order id, its item rows follow under consecutive ids, the stock decrements are applied, and the table invariant (every id below its counter, products keyed by id) is kept |
| Orders.DemandDistinct | php-api/controllers/orders.php:196-215 | with pairwise distinct product ids, the quantity taken of a product is that of its single line, or 0 |
| Orders.DistinctLinesKeepStock | php-api/controllers/orders.php:144 | as written, a cart whose product ids are pairwise distinct never leaves a stock below zero |
| Orders.DuplicateLinesOversell | php-api/controllers/orders.php:144 | as written, two one-unit lines of a product with one unit in stock are both accepted and the stock becomes -1 |
| Orders.TwoOneUnitLinesPriced | php-api/controllers/orders.php:134-168 | as written, that cart of two one-unit lines is priced line by line |
| Orders.OneInStockAccepts | php-api/controllers/orders.php:144 | as written, a one-unit line of the product with one unit in stock passes, whatever lines precede it |
| Orders.CumulativeDemandBounded | php-api/controllers/orders.php:144 | with the corrected check, the lines of an accepted cart never take more of a product than its stock |
| Orders.CumulativeCheckKeepsStock | php-api/controllers/orders.php:144 | with the corrected check, no checkout takes any product's stock below zero |
| Orders.ItemImageUrl | php-api/controllers/orders.php:23-26 | a PHP-empty image ("" or "0", or null read as "") is returned unchanged; any other becomes an absolute `http` URL, and an `http` URL is kept as it is |
| Orders.ItemImageUrlIdempotent | php-api/controllers/orders.php:23-26 | making an item's image URL absolute twice gives the same as once |
| Orders.FormatItem | php-api/controllers/orders.php:22-35 | the formatted item carries the row's id, product id, product name, quantity, price and total, and its image made absolute by `ItemImageUrl` |
| Orders.ItemsOf | php-api/controllers/orders.php:18-20 | the items of an order are exactly the rows with that order id |
| Orders.FormatOrder | php-api/controllers/orders.php:42-58 | id, order number, customer, subtotal, shipping, tax, total, shipping address, notes, `created_at` and `updated_at` are the row's; every item formatted in order; null status, payment status and payment method read as "pending", "pending" and "PayFast" |
| Orders.OwnOrders | php-api/controllers/orders.php:10-14 | exactly the caller's orders, each as often as it occurs in the table |
| Orders.OwnOrdersComplete | php-api/controllers/orders.php:10-14 | every order of the caller is selected |
| Orders.FormatOrders | php-api/controllers/orders.php:16-59 | one formatted order per selected row, in order, each with exactly the item rows of its id |
| Orders.FormattedListed | php-api/controllers/orders.php:16-59 | a selected order, formatted with its items, is in the list |
| Orders.Index | php-api/controllers/orders.php:6-62 | one formatted order per order of the caller, in table order, each with exactly the item rows of its id; every listed order is the caller's, and every order of the caller is listed |
| Orders.FindOrder | php-api/controllers/orders.php:68-70 | nothing is found exactly when no order has this id and this customer; otherwise it is such an order |
| Orders.Show | php-api/controllers/orders.php:64-116 | 404 "Order not found" exactly when no order of the caller has the id; otherwise the caller's order with that id, formatted with exactly the item rows of that id |
| Auth.FormatUser | php-api/controllers/auth.php:93-104 | id, email, phone and avatar are the row's; role and name are the row's when present, else "customer" and ""; `created_at` and `updated_at` are the row's when present, else the current time |
| Auth.UserByEmail | php-api/controllers/auth.php:19-21 | nothing is found exactly when no row has the email; otherwise a row with that email |
| Auth.Login | php-api/controllers/auth.php:6-33 | 422 exactly when email or password is PHP-empty; success exactly when a row has the email and the password verifies against its hash, with the formatted user and a token for its id, email and role (default "customer"); every other request is 401 |
| Auth.LoginUniform | php-api/controllers/auth.php:23-24 | a wrong password for a registered email gets the same answer as an email nobody registered |
| Auth.LoginTokenClaims | php-api/controllers/auth.php:27 | the token a login returns verifies, until it expires, to exactly the user's id, email and role |
| Auth.NewUser | php-api/controllers/auth.php:53-59 | the inserted row has the given name and email, the hashed password, and the given role or "customer" |
| Auth.Register | php-api/controllers/auth.php:35-73 | 422 "Validation failed" listing exactly the missing fields, 422 "Email already registered" for a taken email, both without writing; otherwise exactly one new row is appended and its formatted user and token returned with 201 |
| Auth.InsertUser | php-api/controllers/auth.php:56-61 | the user row is appended under the next user id and the counter advances, keeping the table invariant |
| Auth.RegisterKeepsEmailsUnique | php-api/controllers/auth.php:46-59 | appending a user whose email was free keeps emails unique in the table |
| Auth.Me | php-api/controllers/auth.php:75-86 | 401 "Unauthorized" without a verified token; 404 "User not found" exactly when no row has the token's user id; otherwise `formatUser` of that row, whose id is the token's |
| Jwt.Verify | php-api/helpers/jwt.php:32-48 | claims come back exactly when the token has three segments, its third equals the recomputed signature, the payload decodes and carries an `exp` no earlier than now; they are then the decoded payload |
| Jwt.RequireAuth | php-api/helpers/jwt.php:61-69 | 401 "Unauthorized" exactly when no claims verified; otherwise those claims |
| Jwt.RequireRole | php-api/helpers/jwt.php:71-79 | passes exactly when verified claims carry the role; 401 without claims and 403 "Forbidden" for another role |
| Jwt.ThreeSegments | php-api/helpers/jwt.php:29-36 | three dot-free segments joined with '.' explode back into exactly those three |
| Jwt.GenerateSegments | php-api/helpers/jwt.php:14-30 | an issued token is header, payload (with `exp` = time + JWT_EXPIRY) and the HMAC of the first two, each base64url-encoded |
| Jwt.VerifyGenerated | php-api/helpers/jwt.php:14-48 | an issued token verifies to exactly its claims up to and including its expiry second, and to nothing after it |
| Jwt.TamperedSignatureRejected | php-api/helpers/jwt.php:38-41 | a token whose signature segment is replaced by any other dot-free string is rejected |
| Jwt.RoleGateOnIssued | php-api/helpers/jwt.php:71-79 | an unexpired issued token passes `requireRole` exactly for its own role and gets 403 for any other |
| Base64.StdValue | php-api/helpers/jwt.php:10-12 | the decoding table inverts the standard alphabet and accepts nothing else |
| Base64.EncodeSextets | php-api/helpers/jwt.php:6-8 | 6-bit groups: four per three bytes, plus two or three for a one- or two-byte tail |
| Base64.Strtr | php-api/helpers/jwt.php:7 | `strtr` with two-character tables keeps the length and maps exactly the two listed characters |
| Base64.StrtrPadded | php-api/helpers/jwt.php:7 | `strtr('+/', '-_')` turns the standard alphabet into the URL-safe one and leaves '=' padding alone |
| Base64.UrlEncodeChars | php-api/helpers/jwt.php:6-8 | base64url encoding is the URL-safe alphabet over the 6-bit groups, with the padding trimmed |
| Base64.UrlEncodeAlphabet | php-api/helpers/jwt.php:6-8 | an encoded segment never contains '+', '/', '=' or '.', so it can be joined with '.' |
| Base64.SextetsOfStdChars | php-api/helpers/jwt.php:10-12 | decoding standard-alphabet characters gives back their 6-bit values |
| Base64.DecodeEncodeSextets | php-api/helpers/jwt.php:6-12 | regrouping the 6-bit groups of a byte string gives back the bytes |
| Base64.UrlRoundTrip | php-api/helpers/jwt.php:6-12 | `base64UrlDecode(base64UrlEncode(x)) == x` for every byte string |
| Payment.UrlEncode | php-api/controllers/payment.php:51 | `urlencode` output never contains '&', '=' or a space, so it cannot break a `key=value&` pair |
| Payment.UrlEncodeUnreserved | php-api/controllers/payment.php:51 | a value of unreserved characters is sent unchanged |
| Payment.NameOneWord | php-api/controllers/payment.php:40-41 | a one-word name is all `name_first`; `name_last` is "" |
| Payment.NameWords | php-api/controllers/payment.php:40-41 | `name_first` and `name_last` are the first two space-separated words; later words are dropped |
| Payment.FormFields | php-api/controllers/payment.php:34-46 | eleven fields in insertion order, starting with `merchant_id`, with the formatted amount 9th and the order id as `custom_str1` last |
| Payment.SigningStringParts | php-api/controllers/payment.php:49-53 | without a passphrase the signed string splits on '&' into exactly the fields' `key=urlencode(trim(value))` pairs in insertion order, each splitting on '=' into key and encoded value |
| Payment.TrimLastAmpersand | php-api/controllers/payment.php:53 | `rtrim(…, '&')` removes exactly the '&' appended after the last pair |
| Payment.LoopStringTrimmed | php-api/controllers/payment.php:49-53 | the loop's string, once trimmed, is the pairs joined by '&', with no trailing '&' |
| Payment.ParamString | php-api/controllers/payment.php:49-57 | the loop builds exactly the signing string: the pairs joined by '&', then `&passphrase=` and the encoded passphrase when that is non-empty |
| Payment.SignedForm | php-api/controllers/payment.php:59 | the form grows by exactly one field, `signature`, last, hashed over the fields without it |
| Payment.Initiate | php-api/controllers/payment.php:13-65 | 401 without a token, 422 "Order ID is required" for an empty `order_id`, 404 "Order not found" unless the order is the caller's; otherwise the PayFast URL and the signed form of that order and user |
| Payment.MarkPaid | php-api/controllers/payment.php:86-87 | every order whose id equals the posted `custom_str1` under MySQL's numeric comparison gets payment status "paid", status "confirmed", the reference and `updated_at` = now; every other order is unchanged, and no id changes |
| Payment.MarkFailed | php-api/controllers/payment.php:89-90 | every order whose id equals the posted `custom_str1` under MySQL's numeric comparison gets payment status "failed" and `updated_at` = now, and keeps its status; every other order is unchanged, and no id changes |
| Payment.DecimalIdMatches | php-api/controllers/payment.php:86-90 | a posted decimal numeral matches exactly the order whose id is its value |
| Payment.ExponentIdMatches | php-api/controllers/payment.php:86-90 | a posted "1e3" matches order 1000 and not order 1, as MySQL compares an INT with a string numerically |
| Payment.FractionalIdMatchesNothing | php-api/controllers/payment.php:83-91 | a `custom_str1` of "1.5" updates no order |
| Payment.NotificationIdempotent | php-api/controllers/payment.php:83-91 | handling the same notification twice leaves the orders as handling it once |
| Payment.OnlyCompleteConfirms | php-api/controllers/payment.php:83-91 | only COMPLETE changes an order's status, and no order other than `custom_str1` changes |
| Payment.Callback | php-api/controllers/payment.php:67-96 | 400 "No data received" for an empty payload and 400 "No order ID" for a PHP-empty `custom_str1`, both changing nothing; otherwise "OK" with the COMPLETE / CANCELLED / other transition applied; the table invariant is kept |
| Products.AbsoluteUrl | php-api/controllers/products.php:145-150 | the result starts with "http": an `http` URL is kept, any other becomes the base URL plus the path without leading slashes |
| Products.AbsoluteUrlIdempotent | php-api/controllers/products.php:145-150 | making a URL absolute twice is the same as once |
| Products.SearchFilter | php-api/controllers/products.php:13-19 | a clause is added exactly when `search` is given |
| Products.SimpleFilter | php-api/controllers/products.php:21-55 | a `column op ?` clause with its one parameter is added exactly when its query parameter applies |
| Products.JoinPlaceholders | php-api/controllers/products.php:55 | joining the clauses of well-formed filters with " AND " leaves one '?' per bound parameter |
| Products.FiltersAligned | php-api/controllers/products.php:9-55 | whatever the query, the WHERE clause starts with `is_active = 1` and has exactly as many '?' as bound parameters |
| Products.FiltersWellFormed | php-api/controllers/products.php:9-55 | every condition carries as many '?' as parameters, and the `is_active` one comes first |
| Products.PrefixKept | php-api/controllers/products.php:9-55 | later conditions keep the clauses and parameters already appended, in front |
| Products.SearchParams | php-api/controllers/products.php:13-19 | a search contributes the first three parameters, all `%term%`, and the three-column LIKE clause |
| Products.NoFilters | php-api/controllers/products.php:9-55 | with no optional parameter (and condition `all` or absent) the query filters on `is_active` alone |
| Products.BuildFilters | php-api/controllers/products.php:9-55 | the successive appends build exactly the clauses and parameters of `Filters` |
| Products.Append | php-api/controllers/products.php:9-55 | one append step adds its condition's clause and parameters after the existing ones |
| Products.OrderBy | php-api/controllers/products.php:58-65 | only `price_asc` and `price_desc` change the default `created_at DESC`, to ascending and descending effective price |
| Numeric.LeadingDigits | php-api/controllers/products.php:68-69 | the digit prefix `(int)` reads: a prefix of digits followed by a non-digit or the end |
| Numeric.Truncate | php-api/controllers/products.php:68-69 | the cast truncates toward zero: a non-negative numeral gives the largest integer not above its value, a negative one the smallest integer not below it |
| Numeric.CapToInt | php-api/controllers/products.php:68-69 | the result lies in the 64-bit range: a truncation inside it is kept, one beyond a bound becomes that bound, and a numeral too large for a double (infinity) gives 0 |
| Numeric.NumericPrefixOfDigits | php-api/controllers/products.php:68-69 | a string of digits reads as the integer numeral of their value |
| Numeric.NumericPrefixOfNat | php-api/controllers/products.php:68-69 | a decimal numeral reads as its value |
| Numeric.ExponentNumeral | php-api/controllers/products.php:68-69 | "1e3" reads as the numeral 1 × 10^3, of value 1000 |
| Numeric.FractionNumeral | php-api/controllers/products.php:68-69 | "1.5" reads as the numeral 15 × 10^-1, strictly between 1 and 2 |
| Products.IntCast | php-api/controllers/products.php:68-69 | `(int)` always lies in the 64-bit range and is the truncated value of the leading numeric prefix whenever that fits |
| Products.IntCastExponent | php-api/controllers/products.php:68-69 | `(int)"1e3"` is 1000 |
| Products.IntCastFraction | php-api/controllers/products.php:68-69 | `(int)"1.5"` is 1 |
| Products.IntCastOfNat | php-api/controllers/products.php:68-69 | `(int)` of a decimal numeral within the 64-bit range is its value |
| Products.Paginate | php-api/controllers/products.php:68-70 | page and per_page are `(int)` of the query values: page below 1 becomes 1 (default 1); per_page below 1 becomes 1 and above 50 becomes 50 (default 20); in-range values are kept; offset = (page − 1) × per_page |
| Products.PerPageExponentCapped | php-api/controllers/products.php:69 | `per_page=1e3` reads as 1000 and is capped to 50 |
| Products.LastPage | php-api/controllers/products.php:103 | `ceil(total / per_page)`: the fewest pages of per_page rows that hold the total |
| Products.IndexMeta | php-api/controllers/products.php:101-106 | the meta block's page and per_page are clamped, total kept and last page the ceiling |
| Products.ImagesOf | php-api/controllers/products.php:130-133 | exactly the product's image rows |
| Products.AbsolutizeUrls | php-api/controllers/products.php:145-150 | the by-reference loop rewrites the array in place to every image with its URL made absolute |
| Products.FormatImages | php-api/controllers/products.php:130-150 | the product's image rows, or the legacy image as one primary entry with id 0 when it is truthy, or nothing; every URL starts with "http" |
| Products.ImagesSpec | php-api/controllers/products.php:130-150 | the image list made absolute has one entry per row with the same id and primary flag, or the legacy entry, or none |
| Products.DecimalOrNull | php-api/controllers/products.php:172 | a DECIMAL column reads as null exactly when it is PHP-empty, else as its value |
| Products.IntOrNull | php-api/controllers/products.php:177-178 | an INT column reads as null exactly when it is null or 0 |
| Products.DecodeOr | php-api/controllers/products.php:153-159 | a null or undecodable JSON column reads as the default |
| Products.Formatted | php-api/controllers/products.php:165-190 | every column of the row is copied under `formatProduct`'s rules: condition defaults to "new"; sale price and weight are present exactly when truthy; year bounds and warranty exactly when non-zero; dimensions decoded when present; description, brand, sku, timestamps and the vendor and category names default to "", the category id to 0; undecodable JSON lists become [] |
| Products.FormatProduct | php-api/controllers/products.php:128-191 | the formatted product carries the image list of `FormatImages` (all URLs absolute) and the fields of `Formatted` |
| Vendor.TrimAll | php-api/controllers/vendor.php:96 | `array_map('trim', …)` trims every part and keeps the count |
| Vendor.FilterEmpty | php-api/controllers/vendor.php:96 | `array_filter` keeps only values that are not PHP-empty, each under its original index |
| Vendor.FilterEmptyOrdered | php-api/controllers/vendor.php:96 | the kept entries keep their original order |
| Vendor.FilterEmptyComplete | php-api/controllers/vendor.php:96 | every value that is not PHP-empty is kept, under its own index |
| Vendor.TrimAllKeeps | php-api/controllers/vendor.php:96 | parts without surrounding whitespace come through `trim` unchanged |
| Vendor.FilterBlankLine | php-api/controllers/vendor.php:96 | `array_filter(["a", "", "b"])` keeps keys 0 and 2 |
| Vendor.BlankLineBreaksList | php-api/controllers/vendor.php:94-97 | as written, the text "a\n\nb" leaves a gap in the keys, so `json_encode` stores an object rather than a list |
| Vendor.CompatList | php-api/controllers/vendor.php:94-97 | corrected: the kept values re-keyed 0, 1, 2, …, so the stored JSON is always a list, with the same values in the same order |
| Vendor.CompatStored | php-api/controllers/vendor.php:94-97 | the stored compatibility array holds the kept lines' values in order; as written under their original keys (a blank line leaves a gap), corrected re-keyed as a list |
| Vendor.StoredBlankLine | php-api/controllers/vendor.php:94-97 | for "a\n\nb" the array stored as written has keys 0 and 2, the corrected one keys 0 and 1 |
| Vendor.CreateStoresBlankLine | php-api/controllers/vendor.php:94-115 | creating a product from "a\n\nb" encodes the gapped array as written and the list when corrected |
| Vendor.CompatListKeepsLines | php-api/controllers/vendor.php:94-97 | every entry is a non-empty trimmed line without a newline, and every line with something besides whitespace is an entry |
| Vendor.CompatEntriesPlain | php-api/controllers/vendor.php:96 | the kept entries are non-empty and hold no newline |
| Vendor.CompatEntryOf | php-api/controllers/vendor.php:96 | a line with something besides whitespace has its trimmed text among the kept entries |
| Vendor.OwnProducts | php-api/controllers/vendor.php:63-81 | the role gate's error, or exactly the caller's product rows, unchanged |
| Vendor.IntIfGiven | php-api/controllers/vendor.php:116-117 | an optional integer is present exactly when the field is given non-empty, and is then `(int)` of it, within the 64-bit range |
| Vendor.NewProduct | php-api/controllers/vendor.php:102-125 | the inserted row has the next id, the caller as vendor, the given name, and is active; the `corrected` flag chooses how the compatibility list is stored |
| Vendor.NewProductDefaults | php-api/controllers/vendor.php:109-124 | condition defaults to "new", stock to 0, brand, sku and description to "", and the JSON lists to `[]` |
| Vendor.NewProductOptionals | php-api/controllers/vendor.php:113-124 | sale price, weight, dimensions, year bounds and warranty are stored exactly when given non-empty |
| Vendor.UploadRows | php-api/controllers/vendor.php:137-153 | at most one image row per upload |
| Vendor.UploadRowsLast | php-api/controllers/vendor.php:142-152 | one more upload adds its own row under the next id, primary only at index 0, if it arrived and was moved, and nothing otherwise |
| Vendor.UploadRowsSpec | php-api/controllers/vendor.php:137-153 | the stored images belong to the product with consecutive ids; only the upload at index 0 can be primary, and the first stored image is primary exactly when upload 0 was stored |
| Vendor.StoreUploads | php-api/controllers/vendor.php:137-153 | the loop appends exactly `UploadRows` and allocates one image id per row |
| Vendor.InsertProduct | php-api/controllers/vendor.php:102-153 | the row is stored under the next product id and its image rows appended under consecutive image ids, keeping the table invariant |
| Vendor.CategoryName | php-api/controllers/vendor.php:157-159 | the `LEFT JOIN` finds a category name exactly when the row has a category id that a category carries |
| Vendor.CreateProduct | php-api/controllers/vendor.php:83-162 | the role gate's error, or 422 "Name and price are required", both writing nothing; otherwise the `NewProduct` row under the next id (compatibility list as written, or corrected by the flag), exactly its image rows, and the result of `formatProduct`: the row's fields by `Formatted` with its category name, and one absolute image entry per stored image row; the table invariant is kept |
| Vendor.NewImagesListed | php-api/controllers/vendor.php:156-161 | a stored image makes the created product's image list non-empty |
| Vendor.AllowlistSetsPlain | php-api/controllers/vendor.php:178-185 | no column the allowlist loop sets holds a '?' |
| Vendor.AllowlistSetsEmpty | php-api/controllers/vendor.php:178-185 | the loop sets nothing exactly when no allowlisted key is in the body |
| Vendor.AllowlistSetsComplete | php-api/controllers/vendor.php:178-185 | every allowlisted key in the body is set, to the body's value |
| Vendor.AllowlistSetsSound | php-api/controllers/vendor.php:178-185 | every assignment comes from an allowlisted key in the body |
| Vendor.JsonSets | php-api/controllers/vendor.php:187-203 | the JSON columns are set exactly when one of the three is given non-empty; a given compatibility text is set first, to the encoding of `CompatStored` (the gapped array as written, the list when corrected) |
| Vendor.UpdateBindsBlankLine | php-api/controllers/vendor.php:187-203 | an update with "a\n\nb" binds the gapped array as written and the list when corrected |
| Vendor.NoJsonKeyGiven | php-api/controllers/vendor.php:187-203 | the body gives no JSON column exactly when it gives none of the three |
| Vendor.UpdateStatementShape | php-api/controllers/vendor.php:205-210 | no UPDATE exactly when no allowlisted key and no JSON column is given; otherwise one '?' per bound value, the product id bound last |
| Vendor.OtherKeysIgnored | php-api/controllers/vendor.php:178-203 | a body key outside the allowlist and the JSON columns never changes the statement |
| Vendor.UpdateProduct | php-api/controllers/vendor.php:164-213 | the role gate's error; 404 "Product not found" unless the caller owns the product; else the statement built from the body, binding the compatibility list as written or, with the `corrected` flag, re-keyed |
| Vendor.DeleteProduct | php-api/controllers/vendor.php:215-225 | the role gate's error; 404 exactly when no row has the id and the caller as vendor, changing nothing; else exactly that row is removed; the table invariant is kept |
| Vendor.Sales | php-api/controllers/vendor.php:227-264 | at most one sale per order item, each carrying the id of an item of the caller, with an empty or absolute image URL |
| Vendor.SaleOf | php-api/controllers/vendor.php:242-260 | a joined item's sale copies its id, order id, product id, product name, quantity, price and total, its image through `ItemImageUrl` (empty or absolute), and the order's number, status and `created_at` and the customer's name |
| Vendor.SalesLast | php-api/controllers/vendor.php:231-240 | the sales keep the items' table order: the last item adds its sale after the others', exactly when it is joined |
| Vendor.SalesSound | php-api/controllers/vendor.php:231-261 | every sale is the sale of an item of the caller that joins an order and its customer |
| Vendor.SalesComplete | php-api/controllers/vendor.php:231-261 | every item of the caller that joins an order and its customer is listed as its sale |
| Sql.JoinOneEach | php-api/controllers/vendor.php:208 | `implode(', ', …)` of one-placeholder clauses leaves one '?' per clause |
| Sql.StatementShape | php-api/controllers/vendor.php:205-210 | an UPDATE of plain columns plus `updated_at = NOW()` has one '?' per bound value and binds the row id last |
| Sql.JoinedClauses | php-api/controllers/vendor.php:206-208 | the SET list with `updated_at = NOW()` appended has one '?' per assignment |
| User.ProfileSets | php-api/controllers/user.php:14-15 | the assignments name plain columns |
| User.ProfileStatementShape | php-api/controllers/user.php:14-22 | no UPDATE exactly when the body has neither `name` nor `phone`; otherwise one '?' per bound value, the caller's id last |
| User.ProfileOtherKeysIgnored | php-api/controllers/user.php:14-15 | keys other than `name` and `phone` never reach the statement |
| User.ApplyProfile | php-api/controllers/user.php:20-21 | the UPDATE keeps the number of user rows |
| User.ApplyProfileScope | php-api/controllers/user.php:18-21 | only the caller's row changes, and only its name, phone and `updated_at` |
| User.ApplyProfileKeepsIds | php-api/controllers/user.php:18-21 | the UPDATE keeps the number of rows and every row's id |
| User.ProfileReadback | php-api/controllers/user.php:24-26 | the row read back carries the name and phone sent and keeps the rest |
| User.UpdateProfile | php-api/controllers/user.php:6-30 | 401 without a token, changing nothing; else the users table after the UPDATE (unchanged without fields), the statement issued, and the caller's row read back |
| User.FormatAddress | php-api/controllers/user.php:40-52 | id, name, phone, both address lines, city, state and postal code are the row's; the country is the row's, or "South Africa" when missing; `is_default` is true exactly for a non-zero value |
| User.OfUser | php-api/controllers/user.php:36 | exactly the caller's addresses: each row of the caller as often as it occurs in the table, and no other row |
| User.WithDefault | php-api/controllers/user.php:36 | the rows with the wanted default flag |
| User.DefaultsFirstPermutes | php-api/controllers/user.php:36 | `ORDER BY is_default DESC` drops and duplicates no row |
| User.Addresses | php-api/controllers/user.php:32-56 | 401 "Unauthorized" exactly without a token; otherwise one entry per address of the caller: every address of the caller is listed formatted, and every entry formats an address of the caller |
| User.AddressesOwnDefaultsFirst | php-api/controllers/user.php:36 | with a token the list is returned, and every default address comes before every other |
| User.FormatAll | php-api/controllers/user.php:40-53 | one formatted address per row, in order |
| User.OwnListed | php-api/controllers/user.php:36-53 | every address of the caller is in the formatted list |
| User.OwnOnly | php-api/controllers/user.php:36-53 | the formatted list has one entry per address of the caller, and each formats one of them |
| User.OwnFormatted | php-api/controllers/user.php:36-53 | the caller's rows in `is_default DESC` order, formatted: one entry per address of the caller, every one of them listed and nothing else |
| Categories.DerivedSlugShape | php-api/controllers/categories.php:22 | the derived slug keeps the name's length, has no space and no upper-case ASCII letter, each character lower-cased or a hyphen for a space |
| Categories.DerivedSlugIdempotent | php-api/controllers/categories.php:22 | deriving a slug from a slug changes nothing |
| Categories.ProductCount | php-api/controllers/categories.php:10-12 | a category's count is at most the number of products |
| Categories.ProductCountInsert | php-api/controllers/categories.php:10-12 | a new product adds one to its category's count exactly when it is active |
| Categories.ProductCountRemove | php-api/controllers/categories.php:10-12 | deleting a product removes one from its category's count exactly when it was active there |
| Categories.FormatCategory | php-api/controllers/categories.php:18-26 | the stored slug, else the derived one; `parent_id` only when truthy; the count of active products |
| Categories.Index | php-api/controllers/categories.php:6-30 | one formatted category per row |
| Categories.IndexListsEmptyCategories | php-api/controllers/categories.php:10-12 | a category with no active product is still listed, with a count of 0 |
| CartContext.Without | src/contexts/CartContext.tsx:91-93 | filtering by item id keeps only items of the cart, none with that id |
| CartContext.ItemCountAppend | src/contexts/CartContext.tsx:100-102 | the item count of two carts joined is the sum of their counts |
| CartContext.AddedSpec | src/contexts/CartContext.tsx:57-77 | a product already in the cart raises that item's quantity, keeping the length and every other item; a new product appends one item at the end; the count grows by the quantity and products stay distinct |
| CartContext.ItemCountUpdate | src/contexts/CartContext.tsx:100-102 | replacing one item changes the count by the difference of the quantities |
| CartContext.MergeCount | src/contexts/CartContext.tsx:61-67 | merging into an existing item raises the count by the quantity added |
| CartContext.WithoutAppend | src/contexts/CartContext.tsx:91-93 | the filter keeps the relative order of the remaining items |
| CartContext.WithoutSpec | src/contexts/CartContext.tsx:91-93 | removing drops exactly the items with that id, keeps every other item and keeps products distinct |
| CartContext.DistinctTail | src/contexts/CartContext.tsx:57-77 | behind the first item of a cart of distinct products come distinct products other than its own |
| CartContext.WithoutDistinct | src/contexts/CartContext.tsx:91-93 | removing items keeps products distinct |
| CartContext.UpdatedSpec | src/contexts/CartContext.tsx:79-89 | 0 or less removes the items with that id; a positive quantity sets only their quantity, keeping the length, ids and products; products stay distinct |
| CartContext.CalculateTotals | src/contexts/CartContext.tsx:18-29 | the subtotal is the sum of (`sale_price` \|\| `price`) × quantity |
| CartContext.TotalsFormula | src/contexts/CartContext.tsx:24-28 | shipping, tax and total follow the server's formula on the client's subtotal |
| CartContext.Lines | src/contexts/CartContext.tsx:32 | the cart as checkout lines: each item's product and quantity, in order |
| CartContext.UnitPricesAgree | src/contexts/CartContext.tsx:20 | the client's `sale_price \|\| price` and the server's `sale_price ?? price` agree when the sale price is absent or non-zero |
| CartContext.TotalsAgreeWithCheckout | src/contexts/CartContext.tsx:18-29 | when no sale price is zero, the totals the cart shows are exactly those checkout charges for the same lines |
| CartContext.ZeroSalePriceDisagrees | src/contexts/CartContext.tsx:20 | a sale price of 0 shows the list price in the cart while checkout charges 0 |
| CartContext.Cart.constructor | src/contexts/CartContext.tsx:32 | the cart starts empty |
| CartContext.Cart.AddToCart | src/contexts/CartContext.tsx:57-77 | the items become `Added` of the old items, and distinct products stay distinct |
| CartContext.Cart.UpdateQuantity | src/contexts/CartContext.tsx:79-89 | the items become `Updated` of the old items, and distinct products stay distinct |
| CartContext.Cart.RemoveFromCart | src/contexts/CartContext.tsx:91-93 | the items become `Without` of the old items, and distinct products stay distinct |
| CartContext.Cart.ClearCart | src/contexts/CartContext.tsx:95-98 | the item list is empty |
| CartContext.Cart.GetItemCount | src/contexts/CartContext.tsx:100-102 | an empty cart counts 0 |
| CartPage.MinusSpec | src/pages/CartPage.tsx:93 | minus on quantity 1 removes the item; on a larger quantity it lowers it by one |
| CartPage.PlusSpec | src/pages/CartPage.tsx:104-108 | plus never sets more than the stock: below the stock it adds one, on a sold-out product it removes the item |
| CartPage.CheckoutTarget | src/pages/CartPage.tsx:15-21 | unauthenticated goes to "/auth" carrying `from: /checkout`; authenticated goes to "/checkout" |
| ProductCard.FirstPrimary | src/components/products/ProductCard.tsx:12 | `find(is_primary)`: nothing exactly when no image is primary; else the first primary image |
| ProductCard.PrimaryImageUrl | src/components/products/ProductCard.tsx:12 | no image exactly for a product without images; else the first primary URL unless empty, else the first image's URL (the same expression at CartPage.tsx:49-51) |
| ProductCard.LegacyImageShown | src/components/products/ProductCard.tsx:12 | a product served with only its legacy image shows that image, made absolute |
| ProductCard.DisplayPrice | src/components/products/ProductCard.tsx:51 | the sale price when truthy, else the list price (also CartPage.tsx:52 and ProductDetailPage.tsx:166) |
| ProductCard.DiscountPercentBounds | src/components/products/ProductCard.tsx:13-16 | no discount gives 0; a discount with a positive sale price lies in [0, 100] and the shown price is below the list price |
| ProductCard.RatioBelowOne | src/components/products/ProductCard.tsx:15 | the discounted fraction of a positive sale price lies strictly between 0 and 1 |
| ProductCard.NegativeSaleOver100 | src/components/products/ProductCard.tsx:13-16 | a negative sale price counts as a discount and shows 200 % |
| CheckoutPage.AddressAcceptedIff | src/pages/CheckoutPage.tsx:15-22 | an address passes exactly when name ≥ 2, phone ≥ 10, address_line1 ≥ 5, city ≥ 2, state ≥ 2 and postal_code ≥ 4 characters |
| CheckoutPage.AddressErrors | src/pages/CheckoutPage.tsx:57-65 | errors are shown on exactly the fields that are too short, with their rule's message, never on `address_line2` or `country` |
| CheckoutPage.AddressRulesShape | src/pages/CheckoutPage.tsx:15-22 | six length rules on six different fields |
| CheckoutPage.CheckoutForm.constructor | src/pages/CheckoutPage.tsx:30-43 | name and phone from the user or "", the other lines blank, country "South Africa", no errors, not loading |
| CheckoutPage.CheckoutForm.HandleAddressChange | src/pages/CheckoutPage.tsx:47-52 | the field takes the value and only its error, if shown, is blanked |
| CheckoutPage.CheckoutForm.PlaceOrder | src/pages/CheckoutPage.tsx:54-99 | an invalid address records the field errors and stops, leaving the cart and the loading flag; a valid one clears errors and cart and goes to "/orders" |
| CheckoutPage.EmptyCartRedirect | src/pages/CheckoutPage.tsx:101-104 | the page redirects to "/cart" exactly when the cart is empty |
| AuthPage.LoginErrors | src/pages/AuthPage.tsx:14-17 | the login form is refused with an error under the email exactly when it is not an address, and under the password exactly when it has fewer than 6 characters, with the schema's messages |
| AuthPage.RegisterValidatedIsComplete | src/pages/AuthPage.tsx:19-23 | what passes the registration schema also passes the server's required-field check |
| AuthPage.BodyComplete | src/contexts/AuthContext.tsx:82-88 | a body with non-empty name, email and password passes the server's required-field check |
| AuthPage.ServerFieldErrors | src/pages/AuthPage.tsx:83-88 | each server error field shows its first message |
| AuthPage.DuplicateEmailShown | src/pages/AuthPage.tsx:77-89 | a taken email reaches the page as a failure "Validation failed" with one field error, under the email |
| AuthPage.RedirectPath | src/pages/AuthPage.tsx:45-51 | the `from` path if present, else "/vendor" for a vendor and "/" for anyone else |
| AuthPage.AuthForm.constructor | src/pages/AuthPage.tsx:31-33 | no errors, not loading, no account type chosen |
| AuthPage.AuthForm.HandleLogin | src/pages/AuthPage.tsx:53-91 | a refused form shows its issues and leaves the session alone; an accepted one calls `login`, whose outcome sets the session only on success and the server's field errors on failure |
| AuthPage.AuthForm.HandleRegister | src/pages/AuthPage.tsx:93-141 | no account type: nothing happens and no error shows; otherwise as login, with the registration schema |
| AuthContext.Settle | src/contexts/AuthContext.tsx:64-72 | a response is returned as it is; a throw becomes a failure with its message, or the fallback when it has none, and its errors |
| AuthContext.RegisterBody | src/contexts/AuthContext.tsx:82-88 | the posted body holds name, email, password, role and `password_confirmation` equal to the password |
| AuthContext.LoginAgainstServer | src/contexts/AuthContext.tsx:52-73 | against `Auth.Login`, the client signs in exactly when the server accepts, with its user and token; a refusal shows the server's own message, never the fallback |
| AuthContext.MeAgainstServer | src/contexts/AuthContext.tsx:34-38 | against `Auth.Me`, a reply arrives exactly when the server found the user, and it signs in that user |
| AuthContext.Session.constructor | src/contexts/AuthContext.tsx:24-25 | no user, loading, and the stored token |
| AuthContext.Session.SignIn | src/contexts/AuthContext.tsx:59-62 | the token and user are those of the response |
| AuthContext.Session.Login | src/contexts/AuthContext.tsx:52-73 | returns the settled outcome with fallback "Login failed"; stores token and user only when it succeeded with data, and otherwise changes nothing |
| AuthContext.Session.Register | src/contexts/AuthContext.tsx:75-104 | the same, with fallback "Registration failed" |
| AuthContext.Session.Logout | src/contexts/AuthContext.tsx:106-115 | whatever the server answers, token and user are cleared and the session is no longer authenticated |
| AuthContext.Session.UpdateUser | src/contexts/AuthContext.tsx:117-119 | the user is replaced, and the session is authenticated |
| AuthContext.Session.FetchUser | src/contexts/AuthContext.tsx:27-46 | loading ends on every path; no token changes nothing; a successful reply sets the user; a throw clears token and user |
| Forms.RuleIssues | src/pages/AuthPage.tsx:14-23 | one rule gives at most one issue, at its field's path |
| Forms.ValidateEmptyIff | src/pages/AuthPage.tsx:57-62 | the parse succeeds exactly when every rule passes |
| Forms.FieldErrors | src/pages/AuthPage.tsx:63-68 | the `forEach` loop builds exactly `LastMessages` of the issues |
| Forms.LastMessagesSpec | src/pages/AuthPage.tsx:63-68 | a field has an error exactly when some issue names it, and it is the message of the last such issue |
| Forms.ErrorsOfFailingRules | src/pages/CheckoutPage.tsx:57-65 | on a form holding every field of a schema with distinct fields, the errors are exactly the failing rules' fields with their messages |
| Forms.LastMessagesAppend | src/pages/AuthPage.tsx:63-68 | one more issue overwrites only its own field's error |
| SearchPage.Filtered | src/pages/SearchPage.tsx:125-136 | the result is no longer than the catalog |
| SearchPage.FilteredMembers | src/pages/SearchPage.tsx:125-136 | a product is listed exactly when it is in the catalog and passes the search, price and condition tests |
| SearchPage.FilteredAppend | src/pages/SearchPage.tsx:125-136 | filtering keeps catalog order |
| SearchPage.EmptyQueryAllConditions | src/pages/SearchPage.tsx:126-133 | with an empty query and condition "all" only the price range decides |
| SearchPage.QueryCaseInsensitive | src/pages/SearchPage.tsx:126-128 | a query and its lower-cased form find the same products |
| SearchPage.DefaultRangeHidesDearProducts | src/pages/SearchPage.tsx:120-131 | with the initial range [0, 5000] a product shown above R5000 never appears |
| SearchPage.LabelsSpec | src/pages/SearchPage.tsx:138-147 | a price chip starting with "R" exactly when the range is narrowed, first; a capitalized condition chip exactly when the condition is not "all", last; none for the cleared filter |
| SearchPage.SearchState.constructor | src/pages/SearchPage.tsx:119-123 | empty query, range [0, 5000], condition "all", sort "relevance", no chips |
| SearchPage.SearchState.ApplyFilters | src/pages/SearchPage.tsx:138-147 | the chips are those of the current range and condition |
| SearchPage.SearchState.ClearFilters | src/pages/SearchPage.tsx:149-153 | range [0, 5000], condition "all", no chips |
| ProductDetailPage.JsRem | src/pages/ProductDetailPage.tsx:89-95 | JavaScript `%` on a non-negative left operand lies in [0, n) and equals the Euclidean remainder |
| ProductDetailPage.CarouselSteps | src/pages/ProductDetailPage.tsx:89-95 | next and previous move one step, wrapping at the ends |
| ProductDetailPage.CarouselSpec | src/pages/ProductDetailPage.tsx:89-95 | from a valid index both give a valid index, and they undo each other |
| ProductDetailPage.StepperSpec | src/pages/ProductDetailPage.tsx:263-272 | minus never below 1, plus never above the stock (0 with no stock); both keep a quantity in [1, stock] there |
| AddProductPage.DropIndex | src/pages/vendor/AddProductPage.tsx:71-72 | filtering out an index never lengthens the list |
| AddProductPage.DropIndexSpec | src/pages/vendor/AddProductPage.tsx:69-81 | an index in range removes exactly that element, keeping the rest in order; one out of range changes nothing |
| AddProductPage.DropIndexLength | src/pages/vendor/AddProductPage.tsx:69-81 | an index in range shortens the list by exactly one |
| AddProductPage.UpdatedRowsSpec | src/pages/vendor/AddProductPage.tsx:83-87 | editing changes only the chosen half of the row at the index; the length and every other row stay |
| AddProductPage.RemovingKeepsARow | src/pages/vendor/AddProductPage.tsx:360 | a removal offered only while more than one row exists leaves at least one |
| AddProductPage.ProductForm.constructor | src/pages/vendor/AddProductPage.tsx:34-56 | no images or previews, one blank specification row, blank required fields, not loading |
| AddProductPage.ProductForm.UploadImages | src/pages/vendor/AddProductPage.tsx:58-67 | the files and one preview URL each are appended in the same order, so the two lists keep equal length |
| AddProductPage.ProductForm.RemoveImage | src/pages/vendor/AddProductPage.tsx:69-73 | the file and the preview at the index both go, keeping the lists aligned |
| AddProductPage.ProductForm.AddSpecification | src/pages/vendor/AddProductPage.tsx:75-77 | exactly one blank row is appended |
| AddProductPage.ProductForm.RemoveSpecification | src/pages/vendor/AddProductPage.tsx:79-81 | exactly the row at the index goes |
| AddProductPage.ProductForm.UpdateSpecification | src/pages/vendor/AddProductPage.tsx:83-87 | one half of the row at the index is replaced |
| AddProductPage.ProductForm.Submit | src/pages/vendor/AddProductPage.tsx:89-128 | stops before loading exactly when name, price, category, brand, sku or stock is empty; otherwise goes to "/vendor/products" with loading cleared |
| BottomNavigation.TabsSpec | src/components/layout/BottomNavigation.tsx:29-51 | vendors get the vendor list and everyone else the customer list, five tabs with distinct paths ending with Profile; at most one tab is active for a pathname |
| BottomNavigation.BadgeSpec | src/components/layout/BottomNavigation.tsx:45-53 | a badge shows only on the customers' Cart tab, exactly when the cart holds items; vendors never see one |
| BottomNavigation.BadgeText | src/components/layout/BottomNavigation.tsx:70 | the badge reads "9+" above 9, else the count's single digit |
| OrdersPage.StatusColorSpec | src/pages/OrdersPage.tsx:81-89 | exactly the seven known statuses have a colour, among them "pending" and "confirmed", which the server writes |
| OrdersPage.ItemCountAtLeastLines | src/pages/OrdersPage.tsx:115 | with every quantity at least 1, the item count is at least the number of lines |
| OrdersPage.CountText | src/pages/OrdersPage.tsx:149 | the text is "1 item" exactly for a count of 1, "n items" otherwise |
| OrdersPage.OrderCard | src/pages/OrdersPage.tsx:114-152 | no card exactly for an order without items (`items[0]` is undefined); else its order number, its first item's image and name, the capitalized status and its colour, the item count text and the total |
| OrdersPage.Page | src/pages/OrdersPage.tsx:94-114 | "No orders yet" exactly for no orders; else one card per order, in order |
| OrdersPage.CardOfServerOrder | src/pages/OrdersPage.tsx:114-152 | an order the server formats with at least one item has a card named after its first item; a null status shows "Pending" with a colour |
| VendorSales.Summarize | src/pages/vendor/VendorSales.tsx:66-69 | the order count is the number of sale rows, not of distinct orders |
| VendorSales.SummaryAppend | src/pages/vendor/VendorSales.tsx:67-69 | revenue and pending count of two lists together are the sums of their figures |
| VendorSales.PendingBounds | src/pages/vendor/VendorSales.tsx:68-69 | pending is at most the order count, and equal exactly when every row is pending |
| VendorSales.RevenueCoversEachSale | src/pages/vendor/VendorSales.tsx:67 | with no negative total, the revenue is at least any single sale's total |
| VendorSales.RevenueNonNegative | src/pages/vendor/VendorSales.tsx:67 | with no negative total the revenue is not negative |
| VendorSales.StatusBadge | src/pages/vendor/VendorSales.tsx:125-127 | the raw status text with the status colour map's colour; nothing for a null status |
| Text.LTrimChar | php-api/controllers/products.php:147 | `ltrim($s, '/')` drops exactly the leading slashes |
| Text.RTrimChar | php-api/helpers/jwt.php:7 | `rtrim($s, '=')` drops exactly the trailing padding |
| Text.Trim | php-api/controllers/vendor.php:96 | `trim` removes whitespace at both ends and nothing else: the result is a substring with only whitespace before and after it, and it neither starts nor ends with whitespace |
| Text.TrimLeft | php-api/controllers/vendor.php:96 | the characters removed in front are whitespace, and the rest does not start with whitespace |
| Text.TrimRight | php-api/controllers/vendor.php:96 | the characters removed behind are whitespace, and the rest does not end with whitespace |
| Text.TrimKeeps | php-api/controllers/vendor.php:96 | `trim` keeps a string without whitespace at its ends |
| Text.Split | php-api/controllers/vendor.php:96 | `explode` gives at least one part, none containing the separator |
| Text.JoinSplit | php-api/controllers/vendor.php:96 | joining the parts of `explode` with the separator gives the string back, so no character is lost |
| Text.SplitJoin | php-api/helpers/jwt.php:29-33 | exploding a join of separator-free parts gives the parts back |
| Text.Lower | php-api/controllers/categories.php:22 | `strtolower` lower-cases each character in place |
| Text.ReplaceChar | php-api/controllers/categories.php:22 | `str_replace(' ', '-', …)` replaces exactly the spaces |
| Text.Capitalize | src/pages/OrdersPage.tsx:134 | the first character upper-cased and the rest kept |
| Text.PadLeft | php-api/controllers/orders.php:175 | `str_pad(…, STR_PAD_LEFT)` ends with the string and is padded in front to the width |
| Text.ZeroPadValue | php-api/controllers/orders.php:175 | zero-padding keeps a digit string's value |
| Text.NatToStringValue | php-api/controllers/orders.php:175 | the decimal text of a number reads back as that number |
| Tables.UserById | php-api/controllers/auth.php:79-81 | nothing exactly when no row has the id; else a row with that id |
| Tables.OrderById | php-api/controllers/vendor.php:232-234 | the join finds an order in the table with the item's order id, and misses only when no order has it |
| Tables.CategoryById | php-api/controllers/vendor.php:157 | nothing exactly when no category has the id; else a category with that id |
| Tables.ProductsInsert | php-api/controllers/vendor.php:102-127 | a product inserted under the next AUTO_INCREMENT id keeps every product keyed by its own id below the counter, once the counter advances |
| Tables.ProductsRemove | php-api/controllers/vendor.php:219-220 | deleting a product keeps every remaining product keyed by its own id below the counter |
| Tables.ProductsSameIds | php-api/controllers/orders.php:213-214 | an update that keeps the keys and every product's id keeps the invariant |
| Tables.UserIdsAppend | php-api/controllers/auth.php:56-61 | a user appended under the next id keeps every user id below the advanced counter |
| Tables.UserIdsKept | php-api/controllers/user.php:18-21 | an update that keeps every user's id keeps the user ids below the counter |
| Tables.OrderIdsAppend | php-api/controllers/orders.php:178-193 | an order appended under the next id keeps every order id below the advanced counter |
| Tables.OrderIdsKept | php-api/controllers/payment.php:86-90 | an update that keeps every order's id keeps the order ids below the counter |
| Tables.ItemIdsAppend | php-api/controllers/orders.php:196-211 | item rows appended under consecutive ids from the counter keep every item id below the advanced counter |
| Tables.ImageIdsAppend | php-api/controllers/vendor.php:137-153 | image rows appended under consecutive ids from the counter keep every image id below the advanced counter |

## Left out

- Database I/O. The PDO connection, SQL execution and MySQL itself are not modelled: tables are sequences and maps, and queries are functions over them. The SQL text is modelled only where its shape is the property (placeholders against bound values).
- Transactions and concurrency. Checkout is one atomic step, and its error paths leave every table as it was. Isolation between racing checkouts is not modelled.
- The 500 path. Database exceptions, and the rollback after them, are not modelled.
- `ORDER BY` clauses. `Products.OrderBy` models only which ordering is chosen, and `User.AddressesOwnDefaultsFirst` models only `is_default DESC`. The members below return rows in table order instead of sorting them.
- Orders.Index: the caller's orders come in table order, not `ORDER BY created_at DESC` (php-api/controllers/orders.php:11). Orders.Index and Orders.Show take the verified caller's id; their 401 without a token is `Jwt.RequireAuth`.
- Categories.Index: categories come in table order, not `ORDER BY c.name ASC`.
- Timestamps. MySQL's `NOW()` and PHP's `date()` are one `now` parameter per request. Users, products and orders carry `created_at`/`updated_at`, set from it on insert and on update (`Payment.MarkPaid`, `Payment.MarkFailed`, `User.ApplyProfile`). Order items, images, categories and addresses carry none, because no modelled response reads theirs.
- Foreign primitives are parameters:
  - HMAC-SHA256, md5 (RFC 1321), `json_encode`/`json_decode`, `password_hash`/`password_verify`;
  - `number_format`, `rand`, `time`, `date`, `Date.now` and `URL.createObjectURL`;
  - zod's email test.
  `Jwt.JsonRoundTrips` states the decode-after-encode assumption the token lemmas need.
- The `hash_equals` constant-time comparison. Timing cannot be expressed, so it is modelled as plain equality.
- Request headers. `getAuthUser`'s `Authorization: Bearer` parsing is not modelled: controllers take the verified claims (or none) as input.
- Floating point. Prices, the 0.15 tax, `toFixed`, `toLocaleString` and `Math.round` are exact reals or left out; display rounding is not verified.
- JSON nulls and PHP casts beyond the ones listed. A request body is a map from keys to strings, except the `order_id` of payment initiation, which is an optional JSON number (`Payment.OrderIdMissing`). A body value that is JSON `null` or an array is not represented, so `isset` and `in` coincide.
- MySQL's case-insensitive collation. E-mail lookups compare strings exactly.
- Case mapping. `strtolower`, `toLowerCase` and `toUpperCase` are modelled on ASCII letters only.
- zod's length rule counts UTF-16 code units; the model counts characters.
- File uploads. `move_uploaded_file`, `mkdir` and the upload directory are not modelled; each upload's arrival and move are inputs. The file name scheme is modelled (`Vendor.FileName`, `Vendor.StoredUrls`) with one `time()` reading for the whole loop, where the source reads the clock once per file.
- Storage. `localStorage` persistence of the cart and the token is left out, beyond the session's initial token.
- The vendor `dashboard` endpoint. Its aggregate SQL (COUNT DISTINCT, SUM, DATE_FORMAT) is not modelled.
- `logout` in php-api/controllers/auth.php only answers success, so it has no state to model. The client side is `AuthContext.Session.Logout`.
- The api.ts client is not modelled: fetch, XHR, timeouts and envelope parsing. Its outcomes enter `AuthContext` as an `Outcome`: a parsed response; or a throw carrying the server's message and errors, "Request timeout", or a failed fetch's message.
- Mock data. SearchPage, OrdersPage, VendorSales and ProductDetailPage read hard-coded mock arrays; the model takes the product, order and sale lists as parameters.
- Toasts, navigation side effects and the `setTimeout` delays of the demo submit paths. The catch branches after those delays cannot be reached and are not modelled.
- `sortBy` on the search page. Only its select box reads it, and nothing orders the results by it. The model keeps it only as a field of `SearchPage.SearchState`.
- The setters of the optional AddProductPage inputs are plain state writes and are not modelled: description, sale price, compatibility, years, condition, weight, dimensions and warranty.
- Display-only rules:
  - the upload tile of AddProductPage shows only while there are fewer than 6 previews;
  - the out-of-stock badge and the disabled purchase buttons are predicates without contracts (`ProductCard.OutOfStock`, `ProductDetailPage.PurchaseDisabled`).
- Auth.Register: the row read back after the INSERT is taken to be the inserted row (`lastInsertId` and the re-SELECT are not modelled).
- Vendor.UpdateProduct: returns the UPDATE statement it would issue. The statement is not applied to the row.
- Vendor.OwnProducts: returns the caller's rows as a map keyed by id, so `ORDER BY p.created_at DESC` has no counterpart. Formatting them through `formatProduct` is `Products.FormatProduct`, applied per row.
- Vendor.Sales: sales come in table order rather than `ORDER BY o.created_at DESC`.
- CartContext.Cart.GetItemCount: its contract states only the empty cart. The count is `ItemCount`, whose additivity `ItemCountAppend`/`ItemCountUpdate` prove; `AddedSpec` and `MergeCount` prove how adding changes it.
- Products.IntCast: numerals are read exactly. A long numeral that PHP first rounds to a binary64 double is not modelled with that rounding; neither is it in `Payment.IdMatches`, which reads the posted id the same way for MySQL's comparison.
- Vendor.NewProduct: a given `category_id` is stored as `(int)` of its text. MySQL's own conversion of a string bound to an INT column (rounding a fraction, rejecting a non-numeric string in strict mode) is not modelled.
- OrdersPage.Page and OrdersPage.OrderCard: an order without items makes the page fail in the source. The model returns no card for it instead.

## Findings

| source | as written | input that shows it | evidently intended | confidence | as-written member | corrected member |
|---|---|---|---|---|---|---|
| php-api/controllers/orders.php:144 | each line is checked against the stock stored before checkout, and stock is decremented only in the second loop (196-215), so lines naming the same product are checked independently | a product with `stock_quantity` 1 and `items` `[{product_id: 1, quantity: 1}, {product_id: 1, quantity: 1}]`: both lines pass and the stock becomes -1 | each line checked against the stock left after the cart's earlier lines, so no checkout drives stock below zero | high, not executed | Orders.DuplicateLinesOversell | Orders.CumulativeCheckKeepsStock |
| php-api/controllers/vendor.php:96 | `array_filter` keeps the original keys, so a blank line in the compatibility text leaves a gap and `json_encode` writes an object | `model_compatibility` "a\n\nb" gives keys 0 and 2, stored as `{"0":"a","2":"b"}` instead of a list | the kept lines re-keyed 0, 1, 2 (`array_values`), stored as the list `["a","b"]` the client reads | high, not executed | Vendor.BlankLineBreaksList | Vendor.CompatList |

The checkout model takes the check as a flag: `Orders.Checkout` with `cumulative == false` is the code as written, and with `true` the corrected check. Product creation and update take a `corrected` flag in the same way (`Vendor.NewProduct`, `Vendor.JsonSets`, `Vendor.CreateProduct`, `Vendor.UpdateProduct`). With `false` they store `Vendor.CompatStored` as written: the entries under their original keys, gap included (`Vendor.StoredBlankLine`, `Vendor.CreateStoresBlankLine`, `Vendor.UpdateBindsBlankLine`). With `true` they store the re-keyed list of `Vendor.CompatList`.
