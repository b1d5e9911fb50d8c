# ShoozYou, modelled in Dafny

ShoozYou is a sneaker shop. It has an Express and Prisma backend, a React storefront with seller and admin back offices, and two maintenance scripts. This project models the shop's core and proves properties of it. There is one Dafny module per source file, and each module imports only the others.

**Backend** (`backend/src`):
- `OrderService` is the checkout engine. It checks the requested lines against the products and their stock, and prices the order in integer cents. Then, in one atomic step, it writes a PENDING order with price-snapshot lines, decrements the stock and removes the ordered lines from the user's cart.
- `PaymentService` then upserts one payment per order and forces the order to PAID or FAILED. Order reads are restricted by role, and status updates accept any status.
- `ProductService` covers size normalisation, stock derived from variants, the variant rules of create and update, the filtered and paged listing, and the compensated stock adjustment.
- `CartService` is the server cart, one line per product. `SellerService` is the inventory view with its stock classes and statistics.
- `OrderDto`, `ProductDto`, `UserDto` and `AuthDto` are the request schemas. Each is a parse from the raw JSON shape to the typed input.
- `AuthService`, `UserService` and `AuthMiddleware` are the account rules.
- `Store` is the database: one object whose tables are maps from id to row.

**Scripts**:
- `ScrapeText` and `ScrapeProducts` model the Courir listing scraper: text normalisation, tile extraction and its skip rules, the crawl queue, de-duplication by SKU, and persistence with its created and updated counters.
- `GenerateVariants` models the script that gives every product without variants a preset set of sizes with random stock.

**Storefront** (`Frontend/shoozyou/src`):
- `CartContext` is the cart reducer. `CheckoutPage` builds the checkout request.
- `Pagination`, `ProductsPage` and `EnfantPage` cover the pagination bar and the paged listings. `SellerDashboard`, `AdminDashboard`, `ProductFormModal` and `ClientAccount` are the back-office pages.
- `AdminRepo` and `AdminUserApi` are the admin lists and their mappings. `OrderApi` maps orders for display.
- `CookieConsent` is the consent record. `ProductFilters` and `ProductFilterParams` are the catalogue filters and their round trip through the address bar. `SearchParams` is `URLSearchParams` as an ordered list of pairs. `HttpClient` is the request and response handling.
- `ProductModal` is the quick view. `MockProducts` and `MockAuth` are the mock catalogue and sign-in. `RequireRole` is the route guard, and `CartBadge` is the cart badge.

**How the model represents things:**
- Code that changes state becomes classes with `modifies` frames: the database, the admin repository, the consent hook, the dashboards, the forms and the modal. Pure code becomes functions and lemmas.
- Money is integer cents throughout.
- JavaScript semantics are written out in `Common`: truthiness, `??`, `trim` with the runtime's whitespace set, ASCII case mapping, `split`, `join` and `slice`.
- Randomness, clocks, generated ids, hashing, token signing, JSON parsing and number parsing are parameters.

Where the code differs from its apparent design, the model follows the code:
- `authenticate` treats "Bearer " with an empty token as a missing token.
- `RequireRole` sends every user home when it is given an empty role list.
- The admin search lower-cases the query but does not trim it.
- A seller row with stock 0 is out of stock, and one with negative stock is low.
- The storefront cart merges size 40 with size "40" when adding, but not when changing a quantity or removing a line.
- The default variant size label keeps the untrimmed size value.
- The product schemas silently strip an `id` field rather than reject it.

## Model

| member | source | states |
|---|---|---|
| OrderService.ProductIds | backend/src/services/order.service.ts:9 | one id per requested line, in line order |
| OrderService.FoundAllIff | backend/src/services/order.service.ts:11-15 | the found-row count equals the line count exactly when the ids are pairwise distinct and all name products, so a repeated product id is rejected like a missing one |
| OrderService.CheckStock | backend/src/services/order.service.ts:19-25 | no error exactly when every line with an existing product asks for at most its stock; otherwise the error names the first short product and every earlier line was satisfiable |
| OrderService.CheckOrder | backend/src/services/order.service.ts:9-25 | 404 "One or more products not found" when the found count differs, else 422 exactly when some line exceeds stock; success implies every line names a product and ids are distinct |
| OrderService.OrderLines | backend/src/services/order.service.ts:51-55 | one stored line per requested line with its product id, quantity and the product's current price |
| OrderService.TotalMatchesLines | backend/src/services/order.service.ts:27-30 | the order total equals the sum of price × quantity over its own price-snapshot lines |
| OrderService.TotalBounds | backend/src/services/order.service.ts:27-30 | with non-negative prices and quantities the total is non-negative and at least each line's amount |
| OrderService.RemoveWhitespace | backend/src/services/order.service.ts:32 | the result contains no whitespace, only characters of the input, and equals the input when it had none |
| OrderService.CardLast4 | backend/src/services/order.service.ts:36 | the last min(4, n) characters of the whitespace-free card number |
| OrderService.Summary | backend/src/services/order.service.ts:33-39 | provider, holder and expiry copied; at most four card characters kept |
| OrderService.ValidCardLast4Digits | backend/src/services/order.service.ts:32-36 | a card number the schema accepts leaves only digits in the stored last four |
| OrderService.AllSpaceCardNumberAccepted | backend/src/services/order.service.ts:32-36 | a card number of twelve spaces passes the schema and stores an empty last four |
| OrderService.SummaryDetails | backend/src/services/order.service.ts:80-82 | the details handed to the payment carry exactly the five summary keys with their values |
| OrderService.NewOrder | backend/src/services/order.service.ts:42-59 | the created order is PENDING, owned by the user, totals its lines, snapshots prices, and bills the shipping address when no billing address is given |
| OrderService.DecrementStock | backend/src/services/order.service.ts:61-68 | the decrements keep the set of products |
| OrderService.DecrementStockEffect | backend/src/services/order.service.ts:61-68 | every product loses exactly the total quantity ordered of it and nothing else in its row changes |
| OrderService.StockAfterCheckout | backend/src/services/order.service.ts:19-68 | after checks that passed, each ordered product's stock drops by its line quantity and stays non-negative; unordered products are untouched |
| OrderService.CheckoutKeepsStockNonNegative | backend/src/services/order.service.ts:19-68 | a checkout that passed the checks keeps every stock non-negative when all were |
| OrderService.RemoveCartLines | backend/src/services/order.service.ts:70-75 | the user's cart loses exactly the ordered products, keeping other quantities; other users' carts are untouched |
| OrderService.DecrementStocks | backend/src/services/order.service.ts:61-68 | the loop of stock updates leaves the products as the line-by-line decrements |
| OrderService.PlaceOrder | backend/src/services/order.service.ts:41-78 | the transaction adds the new PENDING order, applies the decrements and removes the ordered cart lines, as one step |
| OrderService.Fulfil | backend/src/services/order.service.ts:41-84 | the transaction and then the payment: the stored order ends PAID or FAILED, one payment row is written, and the result reports both |
| OrderService.CreateOrder | backend/src/services/order.service.ts:7-85 | a failed check returns its 404 or 422 and writes nothing; a passing one writes exactly what Fulfil states |
| OrderService.GetOrderById | backend/src/services/order.service.ts:110-125 | 404 for an unknown order; otherwise the order exactly when the caller is ADMIN, SELLER or the owner, else 403 |
| OrderService.OrdersOfUser | backend/src/services/order.service.ts:87-108 | exactly the orders whose user is the caller, unchanged |
| OrderService.UpdateOrderStatus | backend/src/services/order.service.ts:127-140 | any status from any status is written and returned; 404 and no change for an unknown order |
| PaymentService.SimulateProviderPayment | backend/src/services/payment.service.ts:10-17 | the outcome succeeds exactly when the draw does, its status is SUCCEEDED exactly then, and its reference starts with "SIM-" |
| PaymentService.PaymentMetadata | backend/src/services/payment.service.ts:36-42 | the metadata holds every detail plus "reference"; a detail named "reference" wins over the provider's |
| PaymentService.OrderStatusFor | backend/src/services/payment.service.ts:48-51 | the forced order status is PAID exactly on success, else FAILED |
| PaymentService.StatusesAgree | backend/src/services/payment.service.ts:31-51 | the returned order status and the stored payment status agree: PAID with SUCCEEDED, FAILED with FAILED |
| PaymentService.PaidOrders | backend/src/services/payment.service.ts:46-49 | only the paid order changes, and its status is overwritten whatever it was |
| PaymentService.UpsertPayment | backend/src/services/payment.service.ts:31-44 | the order gets exactly the new payment row; other orders' payments are untouched |
| PaymentService.RepeatedPaymentOverwrites | backend/src/services/payment.service.ts:31-49 | paying twice equals paying once with the second outcome, for both tables, and adds no second payment row |
| PaymentService.SameOutcomeTwice | backend/src/services/payment.service.ts:31-49 | applying the same outcome again changes neither the order status nor the payment status or count |
| PaymentService.ProcessPayment | backend/src/services/payment.service.ts:19-52 | 404 "Order not found" and no write for an unknown order; otherwise the payment row is upserted, the order status forced, the pair returned, and every payment still belongs to an order |
| ProductService.NormalizeSizeValue | backend/src/services/product.service.ts:23 | trimming then upper-casing equals upper-casing then trimming, and the result has no surrounding whitespace |
| ProductService.NormalizeSizeValueIdempotent | backend/src/services/product.service.ts:23 | normalising twice is normalising once |
| ProductService.MapVariantCreateInput | backend/src/services/product.service.ts:25-44 | trimmed value and stock kept; a truthy size id connects to it, otherwise the size is connected-or-created under the normalised value with the given label or "<value> EU" |
| ProductService.VariantValueMatchesSize | backend/src/services/product.service.ts:26-39 | the stored variant value normalises to the key of the size row it creates |
| ProductService.MapVariants | backend/src/services/product.service.ts:63-100 | one create input per variant, in order |
| ProductService.ComputeStockFromVariants | backend/src/services/product.service.ts:46-51 | undefined exactly for missing or empty variants; with non-negative stocks the total is non-negative and bounds each variant |
| ProductService.ComputeStockAppend | backend/src/services/product.service.ts:50 | one more variant adds exactly its stock to the total |
| ProductService.StockFor | backend/src/services/product.service.ts:55 | the variants' total when there are variants, else the given stock, else 0 |
| ProductService.LinkSize | backend/src/services/product.service.ts:29-43 | a connect to an id no size row has fails with record-not-found, otherwise points to the row with that id and writes nothing; a connect-or-create points to the row with the normalised value, adding it under a generated id when absent, and keeps every existing label |
| ProductService.LinkAll | backend/src/services/product.service.ts:61-101 | fails only with record-not-found and yields one stored variant per input with its value, stock and an existing size row; a connect-or-create variant points to the row of its normalised value |
| ProductService.LinkSizeById | backend/src/services/product.service.ts:29-43 | linking keeps every row, ids not generated again keep naming their rows, and ids that all name rows stay so |
| ProductService.LinkAllFails | backend/src/services/product.service.ts:29-35 | the nested create fails only when some connect names an id no size row has, and succeeds whenever every connected id has a row |
| ProductService.LinkAllById | backend/src/services/product.service.ts:29-35 | a connect to an existing id points the variant to that id's row; ids already present keep naming their rows, and a table whose ids all name rows stays so |
| ProductService.LinkedStocks | backend/src/services/product.service.ts:61-101 | the stored variants carry exactly the request's stocks |
| ProductService.NewProduct | backend/src/services/product.service.ts:53-69 | the created row copies the scalar fields, has stock computed-or-given-or-0, and one variant per request variant |
| ProductService.NewProductStockMatches | backend/src/services/product.service.ts:55-65 | a created product's stock is the sum of its variants' stocks |
| ProductService.CreateProduct | backend/src/services/product.service.ts:53-69 | a duplicate SKU, or a connect to a size id with no row, fails with nothing written; otherwise exactly the new row and the size rows it creates are added |
| ProductService.GetProductById | backend/src/services/product.service.ts:71-82 | the stored row exactly when the id exists, else 404 "Product not found" |
| ProductService.Patch | backend/src/services/product.service.ts:85-91 | each supplied scalar field replaces the stored one, the rest, stock and variants kept |
| ProductService.UpdatedProduct | backend/src/services/product.service.ts:84-111 | supplied variants replace the old ones and set the stock from them; without variants a supplied stock is written alone and nothing can fail |
| ProductService.UpdateStockRule | backend/src/services/product.service.ts:93-104 | no variants and no stock keeps both; supplied variants make the stock their total |
| ProductService.UpdateProduct | backend/src/services/product.service.ts:84-118 | 404 for an unknown id or a connect to a size id with no row, a unique violation for another product's SKU, each with nothing written; otherwise only that row and the size rows change |
| ProductService.DeleteProduct | backend/src/services/product.service.ts:120-129 | 404 and no change for an unknown id, else only that row is removed |
| ProductService.Filtered | backend/src/services/product.service.ts:132-163 | every listed row is in the catalogue and matches the filter |
| ProductService.FilteredComplete | backend/src/services/product.service.ts:132-163 | every matching row is listed |
| ProductService.ListProducts | backend/src/services/product.service.ts:165-184 | total is the match count, pages is max(1, ⌈total/limit⌉), and items are the window of `limit` rows after `(page-1)·limit` |
| ProductService.ListingItemAt | backend/src/services/product.service.ts:170-171 | position m of a page holds match number (page-1)·limit + m |
| ProductService.ItemOnItsPage | backend/src/services/product.service.ts:170-182 | every match appears on page ⌊k/limit⌋+1, which is within the page count |
| ProductService.PageBeyondLastIsEmpty | backend/src/services/product.service.ts:170-182 | a page past the last is empty |
| ProductService.FilteredIgnoresPaging | backend/src/services/product.service.ts:165-174 | the page number does not change which rows match |
| ProductService.PriceBoundsInclusive | backend/src/services/product.service.ts:154-163 | a product priced exactly at both bounds passes |
| ProductService.AdjustProductStock | backend/src/services/product.service.ts:187-202 | a missing product fails with record-not-found; a delta that would go negative is compensated back and fails with 422; otherwise the stock moves by the delta and stays non-negative |
| CartService.GetCart | backend/src/services/cart.service.ts:4-9 | the user's cart exactly when one exists |
| CartService.AddedLine | backend/src/services/cart.service.ts:18-22 | an existing line grows by the quantity, a new line starts at it, other lines are kept |
| CartService.AddTwice | backend/src/services/cart.service.ts:18-22 | adding twice equals adding the sum once |
| CartService.AddsCommute | backend/src/services/cart.service.ts:18-22 | adds for two products commute |
| CartService.AddItemToCart | backend/src/services/cart.service.ts:11-25 | a missing cart is created empty, then the line is upserted; only that user's cart changes |
| CartService.UpdatedLine | backend/src/services/cart.service.ts:34-44 | a quantity ≤ 0 deletes the line, any other replaces it; other lines are kept |
| CartService.UpdateToSameQuantity | backend/src/services/cart.service.ts:41-44 | setting a line to its own positive quantity changes nothing |
| CartService.UpdateCartItem | backend/src/services/cart.service.ts:27-47 | 404 "Cart not found" without a cart and record-not-found for a missing line, both writing nothing; otherwise the cart becomes UpdatedLine |
| CartService.RemoveItemFromCart | backend/src/services/cart.service.ts:49-61 | 404 without a cart, record-not-found for a missing line; otherwise only that line goes |
| CartService.AddThenRemove | backend/src/services/cart.service.ts:18-58 | removing a line just added to a cart without it restores the cart |
| CartService.UpdateToZeroRemoves | backend/src/services/cart.service.ts:34-58 | updating a line to zero or less is removing it |
| CartService.ClearCart | backend/src/services/cart.service.ts:63-66 | every line of the user's cart goes and the empty cart is returned; without a cart nothing changes and null is returned |
| SellerService.ClassifyVariantStock | backend/src/services/seller.service.ts:51-59 | OUT_OF_STOCK exactly for stock ≤ 0, LOW_STOCK exactly for 1..3, IN_STOCK exactly from 4 |
| SellerService.MapStockToStatus | backend/src/services/seller.service.ts:61-79 | the loop with its early return yields the worst class of the stocks, OUT_OF_STOCK for none |
| SellerService.WorstStatusOrderFree | backend/src/services/seller.service.ts:61-79 | the status does not depend on the order of the stocks |
| SellerService.WorstStatusIsAttained | backend/src/services/seller.service.ts:61-79 | the status is the class of some stock and no stock is in a worse class |
| SellerService.MapGenderToCategory | backend/src/services/seller.service.ts:43-49 | homme when the name holds "homme", else femme when it holds "femme", else enfant for "junior" or "enfant", each as an iff |
| SellerService.MixteMeansNoKeyword | backend/src/services/seller.service.ts:43-49 | mixte exactly when the name holds none of the four words |
| SellerService.SizeLabel | backend/src/services/seller.service.ts:108 | the size row's label when there is one, else "<sizeValue> EU" |
| SellerService.InventoryVariants | backend/src/services/seller.service.ts:105-110 | one view variant per stored variant with its value, label and stock |
| SellerService.StockSource | backend/src/services/seller.service.ts:112 | the variants' stocks, or the product's own stock when it has no variants |
| SellerService.InventoryItem | backend/src/services/seller.service.ts:104-128 | the row copies id, SKU, name, price and image, totals and classifies its stock source, and takes its category from the gender name |
| SellerService.CountStatus | backend/src/services/seller.service.ts:134-140 | a status count never exceeds the number of products |
| SellerService.CountsPartition | backend/src/services/seller.service.ts:134-140 | every product is counted under exactly one status |
| SellerService.ComputeStats | backend/src/services/seller.service.ts:130-150 | the accumulator loop counts the products, sums their stocks and counts each status, the three counts adding up to the total |
| SellerService.GetSellerInventory | backend/src/services/seller.service.ts:81-156 | one inventory row per catalogue product, in order; the stats count those rows, add up their stocks and count each status exactly as the rows carry it |
| OrderDto.ExpMonthIsMonthNumber | backend/src/dtos/order.dto.ts:20 | the month pattern accepts exactly the two-digit spellings of 1 to 12 |
| OrderDto.ParseItem | backend/src/dtos/order.dto.ts:28-31 | a line is accepted exactly when its product id is a UUID and its quantity a positive integer, and is then kept as given |
| OrderDto.ParseItems | backend/src/dtos/order.dto.ts:26-32 | the list is accepted exactly when every line is, and keeps every line in order |
| OrderDto.ParseCreateOrder | backend/src/dtos/order.dto.ts:3-38 | the order request is accepted exactly when it has at least one valid line, a provider, a valid shipping address, a valid billing address if any and a valid card; the accepted fields are those sent |
| OrderDto.ParsedOrderShape | backend/src/dtos/order.dto.ts:25-38 | an accepted request has as many lines as sent, each with a UUID product id and a quantity of at least one, and a valid card |
| OrderDto.ParseStatusUpdate | backend/src/dtos/order.dto.ts:40-42 | exactly the six status names are accepted, each as its own status |
| ProductDto.ParseVariant | backend/src/dtos/product.dto.ts:3-13 | a variant is accepted exactly when its ids are UUIDs, its size value non-empty, its label non-empty if given and its stock a non-negative integer; a create variant drops its id |
| ProductDto.ParseVariants | backend/src/dtos/product.dto.ts:26-30 | the variant list is accepted exactly when each variant is, and keeps them in order |
| ProductDto.ParseProduct | backend/src/dtos/product.dto.ts:15-31 | a product body is accepted exactly when each present field meets its rule, and the accepted fields are those sent |
| ProductDto.ParseCreateProduct | backend/src/dtos/product.dto.ts:15-27 | a create body is accepted exactly when SKU, name, description and price are present and every field rule holds (shared with update, variant ids dropped); the accepted input copies the fields, and its variants are the parsed ones, id-less and non-negative |
| ProductDto.ParseUpdateProduct | backend/src/dtos/product.dto.ts:29-31 | an update body is accepted exactly when each present field meets its rule, variants keeping their ids |
| ProductDto.EmptyUpdateAccepted | backend/src/dtos/product.dto.ts:29 | an empty update body is accepted as an empty update |
| ProductDto.ParseFilter | backend/src/dtos/product.dto.ts:33-42 | a listing query is accepted exactly when its ids are UUIDs, its prices non-negative, its limit an integer in 1..100 and its page an integer from 1; limit defaults to 20 and page to 1 |
| ProductDto.DefaultFilter | backend/src/dtos/product.dto.ts:40-41 | a query with no parameters asks for page 1 of 20 |
| UserDto.ParseProfile | backend/src/dtos/user.dto.ts:5-10 | a profile update is accepted exactly when each present field meets its rule, and is kept as sent |
| UserDto.EmptyProfileAccepted | backend/src/dtos/user.dto.ts:5-10 | an empty profile update is accepted |
| UserDto.ParseRoleUpdate | backend/src/dtos/user.dto.ts:12-14 | exactly the three role names are accepted, each as its own role |
| UserDto.ParseStatusUpdate | backend/src/dtos/user.dto.ts:16-18 | the status update is accepted exactly when `active` is a boolean, and carries that boolean |
| UserDto.ParseListUsersQuery | backend/src/dtos/user.dto.ts:20-28 | no role means no filter; a role is accepted exactly when its upper-cased spelling is a role name, and selects that role |
| UserDto.ListQueryIgnoresCase | backend/src/dtos/user.dto.ts:23-24 | any letter case of a role name selects that role |
| UserDto.LowerCaseSellerAccepted | backend/src/dtos/user.dto.ts:20-28 | "seller" selects the SELLER role |
| AuthDto.ParseRegister | backend/src/dtos/auth.dto.ts:3-9 | registration is accepted exactly for a valid email, a password of at least eight characters, non-empty names and an optional role name; the fields are kept |
| AuthDto.ParseLogin | backend/src/dtos/auth.dto.ts:11-14 | login is accepted exactly for a valid email and a password of at least eight characters |
| AuthDto.RegisteredPasswordPassesLogin | backend/src/dtos/auth.dto.ts:3-14 | every accepted registration's credentials pass the login schema |
| AuthService.NewUser | backend/src/services/auth.service.ts:25-34 | the inserted row has the given email and the password hash, is active, and takes the requested role or CLIENT by default |
| AuthService.RegisterUser | backend/src/services/auth.service.ts:17-45 | a taken email is refused with 409 and nothing written; otherwise the user and an empty cart are inserted, the session names the new user and role, and emails stay unique |
| AuthService.LoginUser | backend/src/services/auth.service.ts:47-72 | an unknown email or a wrong password gives 401, a disabled account 403 before the password is compared, and a match returns the user and a token for its id and role |
| UserService.GetUserById | backend/src/services/user.service.ts:23-34 | found exactly when the id is stored, then its public view; 404 "User not found" otherwise |
| UserService.ListUsers | backend/src/services/user.service.ts:36-46 | every listed user is a stored user of the requested role; without a role every user is listed |
| UserService.ListUsersComplete | backend/src/services/user.service.ts:36-46 | every stored user of the requested role is listed |
| UserService.PatchedUser | backend/src/services/user.service.ts:51-54 | each truthy field replaces the stored one, the password by its hash; role and active never change, and an empty update changes nothing |
| UserService.UpdateUserProfile | backend/src/services/user.service.ts:48-71 | an empty update returns the stored user; an unknown id fails; an email already used by another user gives 409 with nothing written; any other update of a stored user succeeds and patches exactly that row, and emails stay unique |
| UserService.UpdateUserRole | backend/src/services/user.service.ts:73-79 | only the user's role changes; an unknown id fails and writes nothing |
| UserService.UpdateUserStatus | backend/src/services/user.service.ts:81-87 | only the user's active flag changes; an unknown id fails and writes nothing |
| UserService.DeleteUser | backend/src/services/user.service.ts:89-91 | the user is removed and nobody else; an unknown id fails and writes nothing |
| AuthMiddleware.ExtractToken | backend/src/middlewares/authMiddleware.ts:13-14 | a token exactly when the header starts with "Bearer ", and it is the rest of the header |
| AuthMiddleware.ExtractTokenRoundTrip | backend/src/middlewares/authMiddleware.ts:14 | "Bearer " followed by a token gives back that token |
| AuthMiddleware.Authenticate | backend/src/middlewares/authMiddleware.ts:12-27 | a missing or empty token gives 401 "missing", a token that does not verify 401 "invalid", and success carries the verified subject and role |
| AuthMiddleware.AuthenticateSignedToken | backend/src/middlewares/authMiddleware.ts:12-27 | a header with a non-empty token that verifies authenticates its subject and role |
| AuthMiddleware.BareBearerIsMissing | backend/src/middlewares/authMiddleware.ts:14-18 | "Bearer " alone counts as a missing token |
| AuthMiddleware.AuthorizeRoles | backend/src/middlewares/authMiddleware.ts:29-41 | 401 without a user, 403 when the role is not listed, success exactly when a user with a listed role is present |
| AuthMiddleware.RoleMatchIsExact | backend/src/middlewares/authMiddleware.ts:35 | the role comparison is case sensitive |
| ScrapeText.Words | backend/src/scraping/scrapeProducts.ts:63-64 | the words are non-empty runs of non-separators taken from the input, the first starting where the input does |
| ScrapeText.WordsEmptyIff | backend/src/scraping/scrapeProducts.ts:63-64 | there are no words exactly when the input is all separators |
| ScrapeText.WordsOfJoin | backend/src/scraping/scrapeProducts.ts:63-66 | words joined by single spaces split back into the same words |
| ScrapeText.Capitalize | backend/src/scraping/scrapeProducts.ts:65 | the word keeps its length, its first character is upper-cased and the rest is unchanged |
| ScrapeText.StartCaseWords | backend/src/scraping/scrapeProducts.ts:60-67 | startCase is empty exactly for an all-separator input, and its words are the capitalised words of the lower-cased input |
| ScrapeText.StartCaseIdempotent | backend/src/scraping/scrapeProducts.ts:60-67 | start-casing a start-cased text changes nothing |
| ScrapeText.StartCaseChar | backend/src/scraping/scrapeProducts.ts:60-67 | every character of the result is a space or a case mapping of an input character |
| ScrapeText.StartCaseIsSegment | backend/src/scraping/scrapeProducts.ts:60-67 | a non-blank input gives a result with no blank at either end, and no "/" unless the input has one |
| ScrapeText.StartCasedSegments | backend/src/scraping/scrapeProducts.ts:73-76 | at most one non-empty segment per "-" piece |
| ScrapeText.FormatCategory | backend/src/scraping/scrapeProducts.ts:69-78 | absent for a missing or empty input or when no segment survives; otherwise the surviving start-cased segments joined by " / " |
| ScrapeText.TrimmedNonEmpty | backend/src/scraping/scrapeProducts.ts:175-176 | at most one segment per piece, each non-empty and already trimmed |
| ScrapeText.SplitCategorySegments | backend/src/scraping/scrapeProducts.ts:168-177 | no segments for a missing or empty path; every segment non-empty and trimmed |
| ScrapeText.TrimPadded | backend/src/scraping/scrapeProducts.ts:175 | trimming removes exactly the blanks around a trimmed, non-empty text |
| ScrapeText.CategoryPathSegments | backend/src/scraping/scrapeProducts.ts:168-177 | a path joined from "/"-free segments splits back into those segments |
| ScrapeText.FormatCategorySegments | backend/src/scraping/scrapeProducts.ts:69-78 | a formatted category without "/" splits back into its start-cased segments |
| ScrapeText.Collapse | backend/src/scraping/scrapeProducts.ts:138 | the result is no longer than the input and keeps a non-blank first and last character |
| ScrapeText.CollapseIsCollapsed | backend/src/scraping/scrapeProducts.ts:138 | after collapsing, whitespace occurs only as single spaces |
| ScrapeText.CollapseOfCollapsed | backend/src/scraping/scrapeProducts.ts:138 | collapsing a collapsed text changes nothing |
| ScrapeText.CleanText | backend/src/scraping/scrapeProducts.ts:133-139 | absent exactly for a missing or blank input; otherwise non-empty, not blank at either end, whitespace only as single spaces |
| ScrapeText.CleanTextIdempotent | backend/src/scraping/scrapeProducts.ts:133-139 | cleaning a cleaned text changes nothing |
| ScrapeText.ToStringSafe | backend/src/scraping/scrapeProducts.ts:90-101 | a text exactly for strings, numbers and big integers: the string itself or the decimal spelling |
| ScrapeText.EnsureLabel | backend/src/scraping/scrapeProducts.ts:103-106 | the trimmed value when it is not blank, the fallback otherwise |
| ScrapeText.EnsureLabelTwice | backend/src/scraping/scrapeProducts.ts:103-106 | with a trimmed non-empty fallback, applying it twice changes nothing |
| ScrapeText.CompactObject | backend/src/scraping/scrapeProducts.ts:80-88 | exactly the keys whose value is not undefined, with their values |
| ScrapeText.CompactObjectIdempotent | backend/src/scraping/scrapeProducts.ts:80-88 | compacting twice is compacting once |
| ScrapeText.DeriveGenderLabel | backend/src/scraping/scrapeProducts.ts:179-189 | the start-cased gender text when non-empty, else the first segment; absent exactly when both are missing |
| ScrapeText.DeriveTypeLabel | backend/src/scraping/scrapeProducts.ts:191-201 | the segments from the third on, joined by " / ", when there are three or more; else the last; absent exactly for none |
| ScrapeText.TypeOfThreeLevels | backend/src/scraping/scrapeProducts.ts:191-201 | a three-level path has the same type as its last two levels |
| ScrapeProducts.SkuOf | backend/src/scraping/scrapeProducts.ts:226-231 | a SKU found is non-empty and its whitespace is collapsed |
| ScrapeProducts.ParsePrice | backend/src/scraping/scrapeProducts.ts:154-157 | no price for a missing or empty text; otherwise the parsed number |
| ScrapeProducts.ProductUrlOf | backend/src/scraping/scrapeProducts.ts:142-145 | no product URL for a missing or empty link |
| ScrapeProducts.ExtractProduct | backend/src/scraping/scrapeProducts.ts:207-322 | a tile is skipped exactly when it has no link, no SKU, no default price or no absolute URL; a kept product carries that SKU, those prices, URL and image |
| ScrapeProducts.ExtractedLabels | backend/src/scraping/scrapeProducts.ts:262-283 | name and brand come from the tile text or else the GTM data, gender and type from the category path, the type defaulting to "Chaussures" and never empty |
| ScrapeProducts.ExtractAllSound | backend/src/scraping/scrapeProducts.ts:204-325 | every extracted product comes from a tile that is kept |
| ScrapeProducts.ExtractAllComplete | backend/src/scraping/scrapeProducts.ts:204-325 | every kept tile contributes its product |
| ScrapeProducts.ExtractCourirProducts | backend/src/scraping/scrapeProducts.ts:204-325 | the loop returns the products of the kept tiles, in tile order |
| ScrapeProducts.EnqueueLinks | backend/src/scraping/scrapeProducts.ts:485-489 | the queue only grows at its end, by links not yet visited, and every link ends up visited or queued |
| ScrapeProducts.FrontierClosed | backend/src/scraping/scrapeProducts.ts:468-490 | once the queue is empty, every next-page link of a fetched page was fetched |
| ScrapeProducts.Crawl | backend/src/scraping/scrapeProducts.ts:459-490 | an empty source URL aborts; a failed fetch aborts; a site whose links all lead to its pages is crawled to the end; the source is fetched first, no page twice, every link of a fetched page is followed, the page counter counts the fetches and the products are those of the fetched pages in order |
| ScrapeProducts.VisitPage | backend/src/scraping/scrapeProducts.ts:469-489 | fetching the head of the queue marks it visited, appends its products and keeps every known link visited or queued |
| ScrapeProducts.FirstBySku | backend/src/scraping/scrapeProducts.ts:492-502 | the kept products come from the input and have a non-empty SKU |
| ScrapeProducts.FirstBySkuDistinct | backend/src/scraping/scrapeProducts.ts:492-502 | no two kept products share a SKU |
| ScrapeProducts.FirstBySkuKeepsFirst | backend/src/scraping/scrapeProducts.ts:497-499 | the first product carrying each non-empty SKU is kept |
| ScrapeProducts.DedupBySku | backend/src/scraping/scrapeProducts.ts:492-503 | the loop keeps the first product per SKU, in order, never more than it was given |
| ScrapeProducts.UpsertReference | backend/src/scraping/scrapeProducts.ts:327-363 | the returned id names the label; an existing row is reused, else exactly one row is added, and names stay unique |
| ScrapeProducts.Description | backend/src/scraping/scrapeProducts.ts:382-384 | "Chaussure <name> par <brand>", or "Chaussure <brand>" without a name |
| ScrapeProducts.PayloadOf | backend/src/scraping/scrapeProducts.ts:386-396 | the payload's price and image are the product's, the name defaults to "<brand> <sku>" |
| ScrapeProducts.UpdatedRow | backend/src/scraping/scrapeProducts.ts:399-402 | an update keeps the SKU and variants, resets the stock to 50, sets the price, and leaves the image when none is given |
| ScrapeProducts.CreatedRow | backend/src/scraping/scrapeProducts.ts:409-414 | a created row has the SKU, no variants, stock 50, the price and the image |
| ScrapeProducts.NewSkuCount | backend/src/scraping/scrapeProducts.ts:365-423 | the created count never exceeds the number of products |
| ScrapeProducts.AllNewAllCreated | backend/src/scraping/scrapeProducts.ts:398-419 | distinct products none of whose SKUs is stored are all created |
| ScrapeProducts.AllKnownNoneCreated | backend/src/scraping/scrapeProducts.ts:398-419 | products whose SKUs are all stored are all updates |
| ScrapeProducts.WriteProduct | backend/src/scraping/scrapeProducts.ts:398-419 | a stored SKU's row is updated in place; a new SKU gets a new row and counts as created |
| ScrapeProducts.PersistProduct | backend/src/scraping/scrapeProducts.ts:371-420 | one product is stored under its SKU, SKUs stay unique and rows of other SKUs do not change |
| ScrapeProducts.PersistProducts | backend/src/scraping/scrapeProducts.ts:365-423 | created plus updated is the number of products, created counts the new SKUs, SKUs stay unique, other rows are kept and each distinct product ends up stored |
| ScrapeProducts.Scrape | backend/src/scraping/scrapeProducts.ts:456-522 | an empty source or a failed fetch writes nothing, and a complete site is scraped; the products are the first of each SKU collected over the fetched pages, skipped is the number of duplicates, pages the number fetched, created the number of SKUs not stored before, and every product is stored with SKUs kept unique |
| ScrapeProducts.CrawlStep | backend/src/scraping/scrapeProducts.ts:468-490 | one turn of the crawl: a visited URL is dropped and nothing else changes; an unvisited one is marked visited and fetched, its products are those of its tiles, and the unvisited known pages shrink |
| GenerateVariants.Preset | backend/scripts/generateVariants.ts:5-10 | each preset has six or seven sizes |
| GenerateVariants.PresetValues | backend/scripts/generateVariants.ts:5-10 | the presets are exactly the four literal size lists |
| GenerateVariants.PresetDistinct | backend/scripts/generateVariants.ts:5-10 | no preset lists a size twice |
| GenerateVariants.NormaliseGender | backend/scripts/generateVariants.ts:12-18 | HOMME exactly when the upper-cased name holds HOMME, else FEMME for FEMME, else ENFANT for ENF, else MIXTE, also for a missing name |
| GenerateVariants.NormaliseIgnoresCase | backend/scripts/generateVariants.ts:13 | a name and its lower-cased form select the same preset |
| GenerateVariants.NormaliseGenderLabel | backend/scripts/generateVariants.ts:12-18 | each catalogue gender name selects its own preset |
| GenerateVariants.FloorScale | backend/scripts/generateVariants.ts:26-33 | flooring a random number in [0, 1) times n gives an integer in [0, n) |
| GenerateVariants.PickSizes | backend/scripts/generateVariants.ts:20-28 | between 3 and min(preset length, 10) sizes, a prefix of the shuffled preset |
| GenerateVariants.PickedFromPreset | backend/scripts/generateVariants.ts:20-28 | the picked sizes are distinct sizes of the preset |
| GenerateVariants.PermutationKeeps | backend/scripts/generateVariants.ts:23 | shuffling a duplicate-free preset keeps its length and its elements, with no duplicate |
| GenerateVariants.DistributeStock | backend/scripts/generateVariants.ts:30-36 | one stock per size, each the floored draw, between 0 and 50 |
| GenerateVariants.WithSize | backend/scripts/generateVariants.ts:38-51 | the size table gains the upper-cased value if missing, labelled "<label> EU" under a generated id, and keeps every existing row |
| GenerateVariants.WithSizeIgnoresCase | backend/scripts/generateVariants.ts:39-43 | labels differing only in case share one size row |
| GenerateVariants.CreateOrFindSize | backend/scripts/generateVariants.ts:38-51 | returns the upper-cased value as the row key, which is then in the table, and changes the table as described |
| GenerateVariants.WithSizes | backend/scripts/generateVariants.ts:74-89 | every existing size row is kept and every picked size gets a row |
| GenerateVariants.NewVariants | backend/scripts/generateVariants.ts:70-89 | a product receives between 3 and its preset's length variants |
| GenerateVariants.NewVariantsShape | backend/scripts/generateVariants.ts:74-89 | each new variant is a distinct preset size with its size row and a stock in 0..50 |
| GenerateVariants.GenderName | backend/scripts/generateVariants.ts:70 | the gender's name when the product has a known gender, else none |
| GenerateVariants.CreatedBounds | backend/scripts/generateVariants.ts:91-93 | the created count is between 3 and 7 per product without variants, so the non-empty guard always holds |
| GenerateVariants.CreatePayloads | backend/scripts/generateVariants.ts:74-89 | one payload per size, in order, with its size row and stock; the size table gains those sizes |
| GenerateVariants.PayloadsAreNew | backend/scripts/generateVariants.ts:71-89 | the payloads built from the picked sizes and drawn stocks are the product's new variants |
| GenerateVariants.GenerateFor | backend/scripts/generateVariants.ts:64-95 | a product with variants is skipped and nothing is written; otherwise it gets its new variants and nothing else changes |
| GenerateVariants.Generate | backend/scripts/generateVariants.ts:53-99 | every visited product is regenerated, no other product changes, no product appears or disappears, and the counter is the number of variants created |
| GenerateVariants.GeneratedDone | backend/scripts/generateVariants.ts:64-98 | the loop invariant after the last product is the script's result |
| GenerateVariants.GenerateTurn | backend/scripts/generateVariants.ts:64-95 | one turn regenerates the next product, leaving the later ones untouched and the size table and creation count accounting for every product so far |
| CartContext.NumericAndTextSizesMerge | Frontend/shoozyou/src/context/CartContext.tsx:25-41 | ADD merges size 40 with size "40", while QTY and RM tell them apart |
| CartContext.Bump | Frontend/shoozyou/src/context/CartContext.tsx:28 | the merge keeps every line and its key |
| CartContext.AddLine | Frontend/shoozyou/src/context/CartContext.tsx:24-31 | an existing key keeps the number of lines, a new key appends the payload, and the key is then in the cart |
| CartContext.SetQuantity | Frontend/shoozyou/src/context/CartContext.tsx:35 | the map keeps every line and its key |
| CartContext.PositiveLines | Frontend/shoozyou/src/context/CartContext.tsx:36 | the filter keeps each line with a positive quantity as often as it occurs, and no other line |
| CartContext.WithoutLineLines | Frontend/shoozyou/src/context/CartContext.tsx:39-42 | RM keeps each line not matching the id and size as often as it occurs, and no other line |
| CartContext.Reduce | Frontend/shoozyou/src/context/CartContext.tsx:22-48 | CLEAR empties the cart, other actions keep it, QTY leaves only positive quantities, RM leaves no matching line |
| CartContext.CountAppend | Frontend/shoozyou/src/context/CartContext.tsx:73-74 | count and subtotal add up over concatenated carts |
| CartContext.KeyCountUnique | Frontend/shoozyou/src/context/CartContext.tsx:25-29 | in a cart with unique keys a present key is on exactly one line |
| CartContext.BumpCount | Frontend/shoozyou/src/context/CartContext.tsx:28-73 | merging adds the payload quantity once per line with that key |
| CartContext.BumpSubtotal | Frontend/shoozyou/src/context/CartContext.tsx:28-74 | merging adds the payload quantity at the price of each line with that key |
| CartContext.AddCount | Frontend/shoozyou/src/context/CartContext.tsx:24-73 | ADD on a cart with unique keys raises the count by exactly the payload quantity |
| CartContext.AddSubtotalNew | Frontend/shoozyou/src/context/CartContext.tsx:29-74 | ADD of a new key adds its price times its quantity to the subtotal |
| CartContext.AddSubtotalMerged | Frontend/shoozyou/src/context/CartContext.tsx:28-74 | ADD of an existing key adds the stored line's price times the payload quantity |
| CartContext.AddExisting | Frontend/shoozyou/src/context/CartContext.tsx:28 | only the matching line's quantity grows, by the payload quantity; every other field and line stays |
| CartContext.ReduceKeepsKeysUnique | Frontend/shoozyou/src/context/CartContext.tsx:22-48 | every action keeps the cart's keys unique |
| CartContext.QtyLines | Frontend/shoozyou/src/context/CartContext.tsx:32-38 | after QTY a matching line has the new quantity if it is positive, and other lines are kept exactly when their quantity is positive |
| CartContext.WithoutLineAppend | Frontend/shoozyou/src/context/CartContext.tsx:41 | RM keeps the order of the remaining lines |
| CartContext.PositiveAppend | Frontend/shoozyou/src/context/CartContext.tsx:36 | QTY's filter keeps the order of the remaining lines |
| CheckoutPage.RequestItems | Frontend/shoozyou/src/pages/Checkout.tsx:64 | one request line per cart line, in order, with its product id and quantity |
| CheckoutPage.Request | Frontend/shoozyou/src/pages/Checkout.tsx:63-69 | the body carries the cart's lines, provider CARD, the shipping address and card, and a billing address only when it differs from shipping |
| CheckoutPage.RequestedIsCount | Frontend/shoozyou/src/pages/Checkout.tsx:44-64 | the request asks for the cart's total quantity |
| CheckoutPage.RequestValidation | Frontend/shoozyou/src/pages/Checkout.tsx:63-69 | the server accepts the body exactly when the cart is non-empty with orderable lines and the addresses and card are valid; then it reads the cart's ids and quantities |
| CheckoutPage.Checkout.HandleSubmit | Frontend/shoozyou/src/pages/Checkout.tsx:55-78 | an empty cart sends nothing; otherwise the request is sent, success clears the cart and shows the order, failure keeps the cart and shows the message or the generic one, and loading ends false |
| Pagination.Go | Frontend/shoozyou/src/components/pagination/Pagination.tsx:14 | the requested page clamped into 1..pages: unchanged inside, 1 below, the last page above |
| Pagination.WindowBounds | Frontend/shoozyou/src/components/pagination/Pagination.tsx:16-19 | the window lies within 1..pages, holds min(maxNumbers, pages) numbers and contains the current page |
| Pagination.Render | Frontend/shoozyou/src/components/pagination/Pagination.tsx:10-12 | nothing exactly when there is at most one page; otherwise the bar for that many pages |
| Pagination.HiddenIffOnePage | Frontend/shoozyou/src/components/pagination/Pagination.tsx:11-12 | the bar is hidden exactly when the total fits on one page |
| Pagination.RenderedBar | Frontend/shoozyou/src/components/pagination/Pagination.tsx:16-53 | consecutive page numbers including the current page; the first and last buttons show exactly when their page is outside the window, ellipses exactly when a gap remains, prev and next disabled exactly at the ends |
| SellerDashboard.FilteredSpec | Frontend/shoozyou/src/pages/seller/SellerDashboard.tsx:115-136 | a product is listed exactly when it matches the search and has the chosen category and status |
| SellerDashboard.FilteredAll | Frontend/shoozyou/src/pages/seller/SellerDashboard.tsx:118-129 | a blank search with both selects on "all" lists every product, in order |
| SellerDashboard.CategoryLabelInjective | Frontend/shoozyou/src/pages/seller/SellerDashboard.tsx:16-21 | comparing category labels is comparing categories |
| SellerDashboard.StatusLabelInjective | Frontend/shoozyou/src/pages/seller/SellerDashboard.tsx:23-134 | comparing status labels is comparing statuses |
| SellerDashboard.TotalPages | Frontend/shoozyou/src/pages/seller/SellerDashboard.tsx:145 | the fewest pages of 20, at least one, that hold the filtered list |
| SellerDashboard.PageItemsWindow | Frontend/shoozyou/src/pages/seller/SellerDashboard.tsx:146-149 | the rows of page p are the 20 filtered rows from (p-1)·20, and an existing page of a non-empty list has at least one |
| SellerDashboard.ShownVariants | Frontend/shoozyou/src/pages/seller/SellerDashboard.tsx:257-259 | the product's variants, or a single "Unique" size carrying its total stock |
| SellerDashboard.ShownStocksAddUp | Frontend/shoozyou/src/pages/seller/SellerDashboard.tsx:257-259 | the size chips of a row add up to its total stock |
| SellerDashboard.Chip | Frontend/shoozyou/src/pages/seller/SellerDashboard.tsx:277-281 | out exactly at stock 0, low exactly for other stocks up to 3 |
| SellerDashboard.ChipAgreesWithServer | Frontend/shoozyou/src/pages/seller/SellerDashboard.tsx:277-281 | for stocks of 0 or more the chip and the server's status agree |
| SellerDashboard.Dashboard.constructor | Frontend/shoozyou/src/pages/seller/SellerDashboard.tsx:39-46 | empty search, both selects on "all", page 1, every product shown |
| SellerDashboard.Dashboard.SetQuery | Frontend/shoozyou/src/pages/seller/SellerDashboard.tsx:199-202 | the search is set and the page goes back to 1 |
| SellerDashboard.Dashboard.SetCategory | Frontend/shoozyou/src/pages/seller/SellerDashboard.tsx:207-210 | the category is set and the page goes back to 1 |
| SellerDashboard.Dashboard.SetStock | Frontend/shoozyou/src/pages/seller/SellerDashboard.tsx:221-224 | the status is set and the page goes back to 1 |
| SellerDashboard.Dashboard.ClampPage | Frontend/shoozyou/src/pages/seller/SellerDashboard.tsx:138-143 | the page is pulled back to the last page when the list shrinks, and stays within range |
| SellerDashboard.Dashboard.Prev | Frontend/shoozyou/src/pages/seller/SellerDashboard.tsx:151 | one page back, never below 1 |
| SellerDashboard.Dashboard.Next | Frontend/shoozyou/src/pages/seller/SellerDashboard.tsx:152 | one page forward, never past the last |
| AdminDashboard.Present | Frontend/shoozyou/src/pages/admin/AdminDashboard.tsx:101-123 | a name kept for display is never empty |
| AdminDashboard.DisplayCategory | Frontend/shoozyou/src/pages/admin/AdminDashboard.tsx:120-124 | the category cell is never empty |
| AdminDashboard.DisplayCategoryCases | Frontend/shoozyou/src/pages/admin/AdminDashboard.tsx:120-124 | gender and type joined by " · " when both are known, the known one alone, "—" when neither is |
| AdminDashboard.FilteredSpec | Frontend/shoozyou/src/pages/admin/AdminDashboard.tsx:97-111 | a blank query lists every product; any other lists exactly the products it matches |
| AdminDashboard.StatsOf | Frontend/shoozyou/src/pages/admin/AdminDashboard.tsx:113-118 | the product count is the list length; orders and revenue are 0 |
| AdminDashboard.Replaced | Frontend/shoozyou/src/pages/admin/AdminDashboard.tsx:147 | every product with the returned id becomes the returned product, every other stays |
| AdminDashboard.ReplaceThenRemove | Frontend/shoozyou/src/pages/admin/AdminDashboard.tsx:147-163 | deleting after updating is deleting; an update of an unknown id changes nothing |
| AdminDashboard.CreateThenRemove | Frontend/shoozyou/src/pages/admin/AdminDashboard.tsx:114-163 | deleting a newly created product gives the list back, and creating adds one to the count |
| AdminDashboard.Page.HandleCreate | Frontend/shoozyou/src/pages/admin/AdminDashboard.tsx:126-139 | success puts the product first and closes the form; failure keeps the list and shows the message or "Création impossible" |
| AdminDashboard.Page.HandleUpdate | Frontend/shoozyou/src/pages/admin/AdminDashboard.tsx:141-156 | nothing without a product being edited; success replaces it and closes the form; failure keeps the list and shows the message or "Mise à jour impossible" |
| AdminDashboard.Page.HandleDelete | Frontend/shoozyou/src/pages/admin/AdminDashboard.tsx:158-171 | nothing without a chosen id; success removes it and closes the dialog; failure keeps the list and alerts the message or "Suppression impossible" |
| ProductFormModal.Validate | Frontend/shoozyou/src/pages/admin/ProductFormModal.tsx:88-99 | accepted exactly when SKU, name and description are all non-blank; otherwise the message of the first blank one, in that order |
| ProductFormModal.TrimmedOrNone | Frontend/shoozyou/src/pages/admin/ProductFormModal.tsx:108 | nothing exactly for a blank text |
| ProductFormModal.PayloadIsClean | Frontend/shoozyou/src/pages/admin/ProductFormModal.tsx:102-111 | an accepted form sends non-empty trimmed SKU, name and description, a trimmed image or none, and its price, stock and references as they are |
| ProductFormModal.Form.constructor | Frontend/shoozyou/src/pages/admin/ProductFormModal.tsx:33-41 | empty texts, price 0, stock 50, no references, no error |
| ProductFormModal.Form.Open | Frontend/shoozyou/src/pages/admin/ProductFormModal.tsx:46-70 | opening copies the edited product, a missing image as "", or resets to the empty form; the error is cleared |
| ProductFormModal.Form.DefaultReferences | Frontend/shoozyou/src/pages/admin/ProductFormModal.tsx:72-80 | an unset gender or type becomes the edited product's or the first option once options exist; a set one stays |
| ProductFormModal.Form.HandleSubmit | Frontend/shoozyou/src/pages/admin/ProductFormModal.tsx:84-116 | an invalid form shows its message and sends nothing; a valid one sends its payload and shows the thrown message, or the generic one, if the submit fails |
| ProductFormModal.EditUngenderedProduct | Frontend/shoozyou/src/pages/admin/ProductFormModal.tsx:46-116 | editing a product without gender ends up holding and submitting the first gender |
| ClientAccount.Changed | Frontend/shoozyou/src/pages/account/ClientAccount.tsx:98-106 | a field is sent, trimmed, exactly when it is not blank and differs from the stored value |
| ClientAccount.PayloadSpec | Frontend/shoozyou/src/pages/account/ClientAccount.tsx:97-111 | the payload is empty exactly when no name or email changed and no password was typed; a sent field always differs from the stored one |
| ClientAccount.PayloadMeetsSchema | Frontend/shoozyou/src/pages/account/ClientAccount.tsx:97-109 | the server accepts the payload exactly when its email is valid and its trimmed password has at least eight characters |
| ClientAccount.DisplayName | Frontend/shoozyou/src/pages/account/ClientAccount.tsx:130-133 | the title is never empty |
| ClientAccount.DisplayNameCases | Frontend/shoozyou/src/pages/account/ClientAccount.tsx:130-133 | "first last" with both names, the first name alone without a last name, else the first non-empty email, else "Mon compte" |
| ClientAccount.StatusClassOf | Frontend/shoozyou/src/pages/account/ClientAccount.tsx:203 | ok exactly for PAID and DELIVERED, danger exactly for FAILED, warn for the others |
| ClientAccount.Account.constructor | Frontend/shoozyou/src/pages/account/ClientAccount.tsx:23-27 | no profile, an empty form, no alert, not saving |
| ClientAccount.Account.HandleSubmit | Frontend/shoozyou/src/pages/account/ClientAccount.tsx:93-128 | nothing without a profile; an empty payload gives the "nothing to save" alert; otherwise it sends the payload, and success stores the profile, clears the password and reports the refresh, while failure keeps everything and shows the message |
| OrderApi.OrUndefined | Frontend/shoozyou/src/services/orderApi.ts:92-101 | absent exactly when the value is null or missing |
| OrderApi.ToNumber | Frontend/shoozyou/src/services/orderApi.ts:74-76 | a number passes through unchanged |
| OrderApi.MapItem | Frontend/shoozyou/src/services/orderApi.ts:84-95 | the item keeps its id, quantity and product identity, and has an image exactly when one was sent |
| OrderApi.MapPayment | Frontend/shoozyou/src/services/orderApi.ts:97-103 | the payment keeps its id, status, provider and date, and metadata exactly when some was sent |
| OrderApi.MapOrder | Frontend/shoozyou/src/services/orderApi.ts:78-105 | the order keeps its id, status and dates, one item per item in order, and a payment exactly when one was sent |
| OrderApi.MapOrderKeepsNumbers | Frontend/shoozyou/src/services/orderApi.ts:74-91 | amounts sent as numbers are kept as they are, whatever string parsing does |
| OrderApi.DisplayOrderStatusInjective | Frontend/shoozyou/src/services/orderApi.ts:112-129 | the six statuses have six different labels |
| AdminRepo.AfterLoad | Frontend/shoozyou/src/services/adminRepo.ts:28-41 | after a load the store holds exactly the list that was returned: the stored one when usable, else the seed |
| AdminRepo.SeedProducts | Frontend/shoozyou/src/services/adminRepo.ts:33-38 | the seed has four products, each with its generated id, three sizes and no image |
| AdminRepo.SeedUsers | Frontend/shoozyou/src/services/adminRepo.ts:63-68 | the seed has four users, each with its generated id, all active |
| AdminRepo.FirstIndex | Frontend/shoozyou/src/services/adminRepo.ts:49 | `findIndex` on ids: none exactly when no entry has the id; otherwise an entry with the id with none before it |
| AdminRepo.WithId | Frontend/shoozyou/src/services/adminRepo.ts:45 | the created product carries the fresh id |
| AdminRepo.WithoutSpec | Frontend/shoozyou/src/services/adminRepo.ts:53-55 | removal keeps exactly the products with another id, never grows the list, and leaves it unchanged when no product has the id |
| AdminRepo.CreateThenRemove | Frontend/shoozyou/src/services/adminRepo.ts:44-55 | creating a product under a fresh id and then removing that id restores the list |
| AdminRepo.UpdateThenRemove | Frontend/shoozyou/src/services/adminRepo.ts:48-55 | an update keeps the id, so removing afterwards leaves the same list as removing before |
| AdminRepo.Repo.constructor | Frontend/shoozyou/src/services/adminRepo.ts:20-21 | the two storage slots start as given |
| AdminRepo.Repo.LoadProducts | Frontend/shoozyou/src/services/adminRepo.ts:28-41 | returns the stored products, or the seed, which is then stored; the users are untouched |
| AdminRepo.Repo.CreateProduct | Frontend/shoozyou/src/services/adminRepo.ts:44-47 | the new product with the fresh id is stored first, followed by the loaded list in order |
| AdminRepo.Repo.UpdateProduct | Frontend/shoozyou/src/services/adminRepo.ts:48-52 | unknown id: throws "Produit introuvable" and stores only what the load stored; else the first product with the id is patched, keeps its id, and is the only change |
| AdminRepo.Repo.RemoveProduct | Frontend/shoozyou/src/services/adminRepo.ts:53-55 | stores the loaded list without every product carrying the id |
| AdminRepo.Repo.LoadUsers | Frontend/shoozyou/src/services/adminRepo.ts:58-71 | returns the stored users, or the seed, which is then stored; the products are untouched |
| AdminRepo.Repo.UpdateUserRole | Frontend/shoozyou/src/services/adminRepo.ts:74-78 | unknown id: throws "Utilisateur introuvable"; else only the role of the first user with the id changes |
| AdminRepo.Repo.ToggleUserActive | Frontend/shoozyou/src/services/adminRepo.ts:79-83 | unknown id: throws "Utilisateur introuvable"; else only the active flag of the first user with the id changes |
| AdminRepo.SeedThenReload | Frontend/shoozyou/src/services/adminRepo.ts:28-71 | with nothing usable stored, a load yields four products and four users and a second load reads the same lists back |
| AdminUserApi.MapRole | Frontend/shoozyou/src/services/adminUserApi.ts:25-34 | admin exactly for ADMIN, seller exactly for SELLER, client otherwise |
| AdminUserApi.RolePayload | Frontend/shoozyou/src/services/adminUserApi.ts:53-55 | ADMIN exactly for admin, SELLER exactly for seller, CLIENT otherwise |
| AdminUserApi.RoleRoundTrips | Frontend/shoozyou/src/services/adminUserApi.ts:25-55 | the role sent to the server and the role mapped back are inverse to each other in both directions |
| AdminUserApi.MapUser | Frontend/shoozyou/src/services/adminUserApi.ts:36-43 | id, email, active flag and date are kept, the role is mapped, and the name has no surrounding whitespace |
| AdminUserApi.MapUserName | Frontend/shoozyou/src/services/adminUserApi.ts:39 | with both names present and unpadded the display name is first, a space, last |
| AdminUserApi.MapUserFirstNameOnly | Frontend/shoozyou/src/services/adminUserApi.ts:39 | without a last name the display name is the first name alone |
| CookieConsent.LoadConsent | Frontend/shoozyou/src/features/consent/useCookieConsent.ts:24-35 | a consent is loaded exactly when the key holds a non-empty text that parses to a record of the current version, and then it is that record |
| CookieConsent.MakeConsent | Frontend/shoozyou/src/features/consent/useCookieConsent.ts:53-72 | the necessary category is always on, the version is the current one, the date is now, and the three optional categories are the choice's |
| CookieConsent.SavedConsentLoads | Frontend/shoozyou/src/features/consent/useCookieConsent.ts:24-39 | a record saved under the key is loaded back unchanged, whatever else storage holds |
| CookieConsent.OtherVersionAsksAgain | Frontend/shoozyou/src/features/consent/useCookieConsent.ts:29-30 | a stored record of another version is not loaded, so the banner asks again |
| CookieConsent.ConsentState.constructor | Frontend/shoozyou/src/features/consent/useCookieConsent.ts:42-44 | the first render holds the loaded consent, opens the banner exactly when there is none, and keeps the preferences closed |
| CookieConsent.ConsentState.Save | Frontend/shoozyou/src/features/consent/useCookieConsent.ts:37-39 | the record is stored under the key, becomes the consent, and the banner closes |
| CookieConsent.ConsentState.AcceptAll | Frontend/shoozyou/src/features/consent/useCookieConsent.ts:53-59 | stores and holds a consent with every category on; the banner closes and the preferences stay as they were |
| CookieConsent.ConsentState.RefuseAll | Frontend/shoozyou/src/features/consent/useCookieConsent.ts:60-65 | stores and holds a consent with every optional category off; the banner closes and the preferences stay as they were |
| CookieConsent.ConsentState.SaveCustom | Frontend/shoozyou/src/features/consent/useCookieConsent.ts:66-72 | stores and holds the visitor's choice; the banner and the preferences both close |
| CookieConsent.ConsentState.OpenPrefs | Frontend/shoozyou/src/features/consent/useCookieConsent.ts:46-50 | the footer's call opens the preferences |
| CookieConsent.ChooseThenReload | Frontend/shoozyou/src/features/consent/useCookieConsent.ts:42-72 | after a custom choice a reload shows the same consent with the banner and the preferences closed |
| ProductFilterParams.ParseNumberParam | Frontend/shoozyou/src/features/products/useProductFilterParams.ts:5-9 | nothing for a missing or empty parameter; otherwise the finite number the text denotes, if any |
| ProductFilterParams.OrNone | Frontend/shoozyou/src/features/products/useProductFilterParams.ts:16-17 | `x \|\| undefined`: nothing exactly for a missing or empty text, else the text itself |
| ProductFilterParams.ApplyParam | Frontend/shoozyou/src/features/products/useProductFilterParams.ts:27-33 | a falsy value leaves no value under the key, any other leaves exactly that value; every other key keeps its values |
| ProductFilterParams.WriteFilters | Frontend/shoozyou/src/features/products/useProductFilterParams.ts:35-38 | brand, type and the two prices hold exactly what the new filters write, and every other parameter keeps its values |
| ProductFilterParams.SetFilters | Frontend/shoozyou/src/features/products/useProductFilterParams.ts:23-46 | brand, type and the two prices hold exactly what the new filters write, the page is dropped, and every other parameter keeps its values |
| ProductFilterParams.ReadWritten | Frontend/shoozyou/src/features/products/useProductFilterParams.ts:14-21 | reading the written parameters gives back brand and type up to emptiness and the prices through the number text; no search is read |
| ProductFilterParams.WriteThenRead | Frontend/shoozyou/src/features/products/useProductFilterParams.ts:14-46 | writing filters and reading them back returns brand, type and every price whose text parses back to itself; the search is lost |
| ProductFilters.HasActiveFilters | Frontend/shoozyou/src/components/products/ProductFilters.tsx:20-28 | inactive exactly when brand and type are missing or empty, neither price is set, and the search is missing or blank |
| ProductFilters.UpdateSpec | Frontend/shoozyou/src/components/products/ProductFilters.tsx:30-32 | a patch sets the keys it holds and keeps the others; the empty patch changes nothing; a full patch overrides any earlier patch |
| ProductFilters.PriceInput | Frontend/shoozyou/src/components/products/ProductFilters.tsx:93-96 | a price input yields nothing exactly when the field is empty |
| ProductFilters.Reset | Frontend/shoozyou/src/components/products/ProductFilters.tsx:34-36 | the reset value has no active filter |
| ProductFilters.ControlsRoundTrip | Frontend/shoozyou/src/components/products/ProductFilters.tsx:43-111 | feeding back what each control shows leaves the filter value unchanged (prices whenever their text reads back to the same number) |
| ProductFilters.ControlsClear | Frontend/shoozyou/src/components/products/ProductFilters.tsx:47-111 | each control given an empty value clears its own field and nothing else |
| ProductFilters.ClearingEqualsReset | Frontend/shoozyou/src/components/products/ProductFilters.tsx:34-122 | clearing every control in turn ends at the reset value, and choosing a brand always shows the reset button |
| HttpClient.ListPairsValues | Frontend/shoozyou/src/services/httpClient.ts:37-38 | an array appends exactly its items, in order, under its key and nothing under any other key |
| HttpClient.EntryPairsValues | Frontend/shoozyou/src/services/httpClient.ts:35-41 | one entry gives its key its values (none for undefined, null or the empty string) and nothing to any other key |
| HttpClient.QueryPairsValues | Frontend/shoozyou/src/services/httpClient.ts:34-42 | with distinct keys, each key of the query ends with exactly its entry's values and a key outside the query with none |
| HttpClient.BuildParams | Frontend/shoozyou/src/services/httpClient.ts:33-42 | the appending loop produces exactly the pairs of the query, entry after entry |
| HttpClient.AppendEntry | Frontend/shoozyou/src/services/httpClient.ts:35-41 | one step of the loop appends exactly the pairs of that entry |
| HttpClient.BuildQueryString | Frontend/shoozyou/src/services/httpClient.ts:31-45 | no query gives the empty string; otherwise the encoded pairs behind a question mark, or the empty string when they encode to nothing |
| HttpClient.Headers | Frontend/shoozyou/src/services/httpClient.ts:51-61 | the headers are the custom ones plus Content-Type (JSON unless overridden), plus a bearer Authorization exactly when the request is authenticated and the session has a non-empty token, which then wins over a custom one |
| HttpClient.Coalesce | Frontend/shoozyou/src/services/httpClient.ts:74-82 | `a ?? b` is b exactly when a is undefined or null, else a |
| HttpClient.Settle | Frontend/shoozyou/src/services/httpClient.ts:73-82 | a response that is not ok throws, carrying its status; an ok response returns |
| HttpClient.SuccessEnvelope | Frontend/shoozyou/src/services/httpClient.ts:82 | the success envelope returns its data, or the whole envelope when the data is null |
| HttpClient.ErrorEnvelope | Frontend/shoozyou/src/services/httpClient.ts:73-80 | an error envelope throws with its message (the status text when the message is empty) and its details (the whole envelope when they are null) |
| HttpClient.NotJson | Frontend/shoozyou/src/services/httpClient.ts:69-82 | a response without JSON returns nothing on success and throws the status text without details on failure |
| SearchParams.GetIsFirstValue | Frontend/shoozyou/src/features/products/useProductFilterParams.ts:16-19 | `get` reads the first of the values `getAll` lists, and nothing when there is none |
| SearchParams.ValuesAppend | Frontend/shoozyou/src/services/httpClient.ts:38 | the values of two joined lists are those of the first followed by those of the second |
| SearchParams.SingleValues | Frontend/shoozyou/src/services/httpClient.ts:40 | one pair gives its name exactly its value and every other name none |
| SearchParams.AppendValues | Frontend/shoozyou/src/services/httpClient.ts:38-40 | `append` adds the value after the name's others and leaves every other name alone |
| SearchParams.DeleteValues | Frontend/shoozyou/src/features/products/useProductFilterParams.ts:29 | after `delete` the name has no value and every other name keeps its values in order |
| SearchParams.FirstWith | Frontend/shoozyou/src/features/products/useProductFilterParams.ts:31 | the position of the first pair with the name, none exactly when the name has no value |
| SearchParams.SetValuesSame | Frontend/shoozyou/src/features/products/useProductFilterParams.ts:31 | after `set` the name has exactly the one value |
| SearchParams.SetValuesOther | Frontend/shoozyou/src/features/products/useProductFilterParams.ts:31 | after `set` every other name keeps its values in order |
| ProductModal.SizesAreRuns | Frontend/shoozyou/src/components/products/ProductModal.tsx:13-19 | every category offers the consecutive sizes from its first to its last, smallest first (40-46 for men, 36-41 for women, 27-34 otherwise) |
| ProductModal.Sizes | Frontend/shoozyou/src/components/products/ProductModal.tsx:29 | no sizes without a product; otherwise the non-empty sizes of its category |
| ProductModal.Modal.constructor | Frontend/shoozyou/src/components/products/ProductModal.tsx:23-24 | closed, no size picked, quantity 1 |
| ProductModal.Modal.Open | Frontend/shoozyou/src/components/products/ProductModal.tsx:27 | opening clears the size and resets the quantity to 1 |
| ProductModal.Modal.PickSize | Frontend/shoozyou/src/components/products/ProductModal.tsx:60-64 | a size button picks that size |
| ProductModal.Modal.PickQty | Frontend/shoozyou/src/components/products/ProductModal.tsx:75-81 | the select sets a quantity from 1 to 10 |
| ProductModal.Modal.HandleAdd | Frontend/shoozyou/src/components/products/ProductModal.tsx:33-87 | callable only when the button is enabled, so a size is picked; the cart is reduced with that line, gains exactly the quantity in pairs and keeps its keys unique; the modal closes |
| ProductModal.OpenPickAdd | Frontend/shoozyou/src/components/products/ProductModal.tsx:27-88 | opening, picking a size and a quantity and adding puts that many pairs of the product in that size in the cart, and closes the modal |
| ProductsPage.PageOf | Frontend/shoozyou/src/pages/Products.tsx:16 | the page is at least 1: the number itself when it is at least 1, else 1 (also for NaN and 0) |
| ProductsPage.PaginateWindow | Frontend/shoozyou/src/pages/Products.tsx:8-11 | for a whole page the slice holds at most the page size and is the run of items starting at `(page - 1) * size`, or empty past the end |
| ProductsPage.PaginateSize | Frontend/shoozyou/src/pages/Products.tsx:8-11 | any page, whole or fractional, holds at most the page size |
| ProductsPage.FirstPagesPrefix | Frontend/shoozyou/src/pages/Products.tsx:8-11 | the first k pages together are the first `k * size` items |
| ProductsPage.PagesCoverList | Frontend/shoozyou/src/pages/Products.tsx:8-11 | the pages up to the ceiling of count over size together are exactly the list |
| ProductsPage.OfferedPagesNonEmpty | Frontend/shoozyou/src/pages/Products.tsx:16-55 | each page the bar can offer shows at least one product, and the bar counts the whole list in pages of twenty |
| EnfantPage.PageItems | Frontend/shoozyou/src/pages/Enfant.tsx:10-22 | the page is the main listing's page for the URL's number: at most twenty products, each from the list |
| EnfantPage.PageItemsWindow | Frontend/shoozyou/src/pages/Enfant.tsx:10-22 | for a whole page number n the twenty products from (n-1)·20, and the first twenty for a missing, zero or smaller number |
| EnfantPage.SliceMembers | Frontend/shoozyou/src/pages/Enfant.tsx:10 | every item of a page slice comes from the list |
| EnfantPage.QuickView.constructor | Frontend/shoozyou/src/pages/Enfant.tsx:18-19 | nothing selected and the modal closed |
| EnfantPage.QuickView.OpenModal | Frontend/shoozyou/src/pages/Enfant.tsx:20 | a card click selects that product and opens the modal |
| EnfantPage.QuickView.Close | Frontend/shoozyou/src/pages/Enfant.tsx:45 | closing hides the modal and keeps the selection |
| MockProducts.FetchAllProducts | Frontend/shoozyou/src/services/productService.ts:13-28 | eighty-four products: the i-th is "P" and "Sneaker " with its number, cycles through the three categories, has no image and costs 79.99 plus 10.00 per step of i mod 9 |
| MockProducts.DemoIdsDistinct | Frontend/shoozyou/src/services/productService.ts:19 | the demo ids are pairwise distinct |
| MockProducts.CategoryIndex | Frontend/shoozyou/src/services/productService.ts:1 | every category sits at a position of the category list |
| MockProducts.CategoriesBalanced | Frontend/shoozyou/src/services/productService.ts:14-17 | each category holds exactly a third of the catalogue |
| MockProducts.ResidueCount | Frontend/shoozyou/src/services/productService.ts:17 | among the first 3n positions each residue modulo 3 occurs n times |
| MockAuth.FirstPiece | Frontend/shoozyou/src/services/authService.ts:20 | the first piece of a split is the text before the first separator |
| MockAuth.DisplayName | Frontend/shoozyou/src/services/authService.ts:20 | the name is never empty: the text before the first "@", or "Utilisateur" |
| MockAuth.DisplayNameCases | Frontend/shoozyou/src/services/authService.ts:20 | the name is the text before the first "@", and "Utilisateur" exactly when that text is empty |
| MockAuth.CurrentUser | Frontend/shoozyou/src/services/authService.ts:34-41 | a user exactly when the slot holds one, and then that user |
| MockAuth.AuthStore.constructor | Frontend/shoozyou/src/services/authService.ts:13 | the slot starts as given |
| MockAuth.AuthStore.Login | Frontend/shoozyou/src/services/authService.ts:15-28 | always succeeds with the generated id and token, the display name, the given role and email, and stores that user |
| MockAuth.AuthStore.Logout | Frontend/shoozyou/src/services/authService.ts:30-32 | the slot is emptied |
| MockAuth.AuthStore.GetCurrentUser | Frontend/shoozyou/src/services/authService.ts:34-41 | reads the current user without changing the slot |
| MockAuth.LoginThenLogout | Frontend/shoozyou/src/services/authService.ts:15-41 | after login the current user has the given email and role; after logout there is none |
| RequireRole.Guard | Frontend/shoozyou/src/components/routing/RequireRole.tsx:6-17 | to the login page, remembering the path, exactly when nobody is signed in; home exactly when a role list is given and does not hold the user's role; the page otherwise |
| RequireRole.EmptyRolesAdmitNoOne | Frontend/shoozyou/src/components/routing/RequireRole.tsx:12-15 | an empty role list lets no one through |
| RequireRole.MoreRolesAdmitMore | Frontend/shoozyou/src/components/routing/RequireRole.tsx:12-16 | allowing more roles never turns away a user who was let through |
| CartBadge.Render | Frontend/shoozyou/src/components/ui/cartbadge.tsx:4-14 | nothing exactly for a missing or zero count; otherwise the badge shows the count |
| CartBadge.Labels | Frontend/shoozyou/src/components/ui/cartbadge.tsx:6-10 | one item is labelled "1 article", more are labelled "n articles" |
| Store.ViewOf | backend/src/services/user.service.ts:12-21 | the returned user has every column of the row except the password hash |
| Store.ParseRole | backend/src/dtos/user.dto.ts:3 | a role read from a text is the one whose stored name is that text |
| Store.RoleNameRoundTrip | backend/src/dtos/user.dto.ts:3 | every role's stored name reads back as that role |
| Store.ParseStatus | backend/src/dtos/order.dto.ts:41 | a status read from a text is the one whose stored name is that text |
| Store.StatusNameRoundTrip | backend/src/dtos/order.dto.ts:41 | every order status's stored name reads back as that status |

## Left out

- Prisma, the database and its transactions are modelled as maps in one object. A transaction is one atomic step, and requests run one after another. The stock check in `createOrder` runs outside the transaction, so an oversell under concurrent checkouts is not captured.
- Foreign-key constraints and cascades are not enforced by the model, because the Prisma schema is not part of this model. A `connect` to a size id that no row has is the error `RecordNotFound`.
- A variant records the unique `value` of its size row rather than the row's id; a `connect` by id is resolved to that value through the table's id index. Generated ids are parameters, and `ProductService.LinkAllById` states the id facts only for ids the database does not generate again.
- Express routing, controllers, `validateRequest`, the error handler and the logger are not modelled. The services return a result value where the code throws an `HttpError`.
- HTTP and `fetch` are not modelled. `HttpClient` receives the decoded response, and the thin API wrappers are reduced to the mappings they apply (`OrderApi`, `AdminUserApi`, `AdminApi`'s records).
- `localStorage` is a map from key to text, and JSON encoding is the pair of parameters `stringify` and `parse`.
- CookieConsent.LoadConsent: `parse` yields a whole consent record or nothing. A stored object with missing fields, which the code would return as is, is not represented.
- Randomness is a parameter: the payment draw, `Math.random` and the random-comparator sort in `generateVariants`, `uid` and `crypto.randomUUID`. So are the clocks; stored timestamps are not represented, and the dates the storefront shows are opaque strings.
- bcrypt hashing and comparison, JWT signing and verification, and zod's email and URL checks are parameters (`hash`, `matches`, `verify`, `isEmail`).
- Floating point is not modelled. Prices are integer cents. The listing and filter prices are exact reals. `Number(text)`, `String(x)`, `toFixed`, the 6.9 shipping fee and `Intl` formatting are parameters or left out. NaN and Infinity appear only as the absence of a number.
- ProductDto.ParseCreateProduct: the optional `metadata` record of a product and of its variants (product.dto.ts lines 9 and 25) is not modelled. So a body whose `metadata` is not a record, which zod rejects, is accepted here.
- ProductDto.ParseUpdateProduct: the same `metadata` field is left out, with the same consequence.
- ProductDto.ParseVariant: the same `metadata` field is left out, with the same consequence.
- Product and variant `metadata` is not stored either. The services copy it through unchanged (product.service.ts line 28, scrapeProducts.ts line 395), and `generateVariants` writes a `{ generated, gender }` record (generateVariants.ts lines 82-86). None of it is represented.
- String lengths are counted in characters. zod's `.min` and `.max` count UTF-16 code units, so the DTO parsers (`ProductDto`, `UserDto`, `AuthDto`, `OrderDto`) measure a string with characters outside the Basic Multilingual Plane as shorter than zod does.
- ScrapeProducts.ExtractProduct: `parsePrice` is a parameter that yields cents, so the code's float parsing of the price text is not modelled.
- Cheerio DOM queries are not modelled. A fetched page is given as its tiles and its next-page URLs, so `collectNextPageUrls` and `resolveImageUrl` appear only through that page data. `new URL` resolution is the parameter `absolute`.
- `URLSearchParams` percent-encoding is not modelled. `HttpClient.BuildQueryString` takes the encoding as the parameter `encode`.
- Unicode NFD normalisation and diacritic stripping in the seller category mapping are not modelled. Names are taken as already normalised.
- Case mapping covers ASCII letters only.
- HttpClient.Settle: the error message is kept as the JSON value found, so the string conversion `Error` applies to a message that is not a string is not modelled. Its own contract states only which outcome occurs and the status it carries. The bodies of the server's envelopes are stated by `HttpClient.SuccessEnvelope`, `HttpClient.ErrorEnvelope` and `HttpClient.NotJson`.
- React rendering, effects and hooks are not modelled, except where a page's state changes are modelled as class methods. Not modelled are: the cart context's storage effect, the dashboards' and the account page's loading effects, the cookie hook's `window.__openCookiePrefs` cleanup, and its `setBannerOpen` and `setPrefsOpen` setters.
- ProductFormModal.SubmitDisabled: the button's disabled flag is a plain function with no contract of its own.
- Order metrics (`getOrderMetrics`, `fetchOrderMetrics`) are not part of this model. Their definitions are not in the repository's shown files.
- `scrapeCourir.js`, `seed.ts`, configuration, static and legal pages, and the network-driven `useProducts` and `useFilterOptions` hooks are not modelled. The product lists they would load are parameters.
- EnfantPage: the `genderSlug: "enfant"` filter of the product request is recorded as the constant `GenderSlug`. The request itself is not modelled, and the list is a parameter.
