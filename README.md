# An e-commerce shop's decision logic, in Dafny

This project models the decision logic of a small shop. The server is an
Express API over a Prisma database. The client is a React Native app. Rendering, routing and networking
are not modelled. What remains is the order of the guards, the lookups, the
computations and the state changes:

- **Server orders** (`OrderController`). `placeOrder` runs a fixed cascade of
  guards, resolves the product ids, answers 404 for missing ones, and reprices
  every line from the stored product. `getUserOrders` and `getOrderById` are
  scoped to the calling user.
- **Server accounts** (`AuthController`). `registerUser`, `loginUser` and
  `getUserProfile` run their guards in order over a user table.
- **Server middleware**. `AuthMiddleware` is the bearer-token guard
  `protect`. `ErrorMiddleware` holds the final `errorHandler` and `notFound`.
- **Client cart** (`CartStore`). The `useMockData` hook adds to, updates,
  removes from and checks out a cart. Its `cartSummary` adds free shipping
  above 200 and 8% tax.
- **Client checks**:
  - `Validators` covers `validators.ts`: the form checks and the product,
    cart-item, order-data and response checks.
  - `Validation` covers the older form checks of `validation.ts`.
  - `ErrorHandler` covers the client's error classes, `handleApiError`,
    the message choice of `showError`, and the attempt loop of `withRetry`.
- **Client screens and hooks**:
  - `Search` is the `useSearch` hook.
  - `ProductList` is the product list screen's tabs, filter, icons and
    grid toggle.
  - `ProductGrid` is the item-layout arithmetic of `useProductGrid`.
  - `LibTheme` and `AppTheme` are the two theme contexts.

Shared modules:
- `Options` holds the option type.
- `Js` models the JavaScript values a JSON body can hold:
  - truthiness, `typeof` and property access;
  - `ToNumber`/`ToString`;
  - `parseInt`, which is given by the engine.
- `Strings` models JavaScript's whitespace, `trim`, `includes`,
  `startsWith`, `split`, `join`, ASCII `toLowerCase` and decimal printing.
- `Sequences` holds `filter`, subsequences and de-duplication with their laws.
- `ShopTypes` holds the client's `Product`, `CartItem`, `OrderItem` and `Order`.

The model treats some things as parameters:
- **Given functions.** Everything the code hands to a library becomes a
  function value: `jwt.verify`, `bcrypt.hash`/`compare`, `generateToken`,
  number parsing and printing, and the server's answer to the cart's
  `placeOrder`.
- **Failures.** A database failure is a `Prisma` value or an `Option`
  error code.
- **Clock and device.** The clock (`createdAt`) and the device's colour
  scheme are parameters.

Money is an exact `real`. IEEE rounding is not modelled.

Where the server could throw before a check, the model follows the code
rather than the intent. Three cases matter:
- Reading a field of a `null` body throws.
- A non-string e-mail with no `includes` method throws.
- A non-string password gets past the length check, because its `length`
  is `undefined`.

Each of these becomes the handler's own 500 (or the catch's mapping) at the
point where the code would throw.

## Model

| member | source | states |
|---|---|---|
| OrderController.CatchResponse | backend/src/controllers/orderController.js:85-92 | a caught error is a 400 carrying its own message exactly when the message mentions "Invalid productId" or "not found", and otherwise the generic 500 |
| OrderController.GuardOrder | backend/src/controllers/orderController.js:6-20 | the guards in order: a null body throws into the catch; then a non-numeric user id gives 400; then missing, non-array or empty items give 400; then a total that is not a positive number gives 400; only then does the item loop run |
| OrderController.ItemLoopOrder | backend/src/controllers/orderController.js:23-31 | the item loop answers for the first item with a problem, whatever the later items hold |
| OrderController.CheckItems | backend/src/controllers/orderController.js:23-31 | the loop over the items returns the first item's problem (missing field 400, then the "greater than 0" 400), as the specification function says |
| OrderController.Resolutions | backend/src/controllers/orderController.js:34-35 | one resolved id per request line |
| OrderController.ResolveIds | backend/src/controllers/orderController.js:34-44 | on success, one integer id per line, each the conversion of that line's productId |
| OrderController.FirstInvalidIdWins | backend/src/controllers/orderController.js:34-40 | the first productId that converts to NaN throws "Invalid productId: …", and the catch turns it into a 400 with that message |
| OrderController.ConvertIds | backend/src/controllers/orderController.js:34-44 | the conversion loop stops at the first unusable id, as the specification function says |
| OrderController.FoundIds | backend/src/controllers/orderController.js:42-44 | the ids the lookup finds are exactly the requested ids that are stored |
| OrderController.FindMany | backend/src/controllers/orderController.js:42-44 | the rows returned are exactly the stored products of requested ids, as many as there are found ids |
| OrderController.FindManyCount | backend/src/controllers/orderController.js:46 | the row count equals the request count exactly when the ids are distinct and all stored, so a repeated existing id fails the length check |
| OrderController.FindById | backend/src/controllers/orderController.js:58 | `find` returns a product with that id, or none when no product has it |
| OrderController.FindFound | backend/src/controllers/orderController.js:42-58 | `find` over the looked-up rows gives the stored product of a requested stored id, and nothing otherwise |
| OrderController.MissingExact | backend/src/controllers/orderController.js:47-48 | the missing ids are the requested ids with no stored product, in request order, repeats included |
| OrderController.FoundIdsExact | backend/src/controllers/orderController.js:47-48 | a requested id is among the ids of the returned rows exactly when it is stored |
| OrderController.NoneMissing | backend/src/controllers/orderController.js:48 | the missing list is empty exactly when every requested id is stored |
| OrderController.LookupNotFound | backend/src/controllers/orderController.js:46-52 | a repeated id or an unstored id gives 404 listing the unstored ids in request order; with only repeats of stored ids the list is empty |
| OrderController.RepriceNeverThrows | backend/src/controllers/orderController.js:58-62 | after the length check passes, the "Product … not found" throw cannot happen |
| OrderController.Reprice | backend/src/controllers/orderController.js:56-74 | the repricing throws exactly when some id has no row; otherwise it gives one line per request line, each built from the row found |
| OrderController.RepriceThrowsAt | backend/src/controllers/orderController.js:58-62 | the first id without a row names the thrown "Product <id> not found" |
| OrderController.PriceLines | backend/src/controllers/orderController.js:55-74 | the loop builds the lines of the specification function and accumulates `calculatedTotal` as their running sum |
| OrderController.LineTotal | backend/src/controllers/orderController.js:64-73 | a line carries the stored name and price, and its total is the stored price times the quantity |
| OrderController.LookupAccepts | backend/src/controllers/orderController.js:46-82 | distinct stored ids are accepted; every line snapshots the stored product; the order total is the sum of the line totals, with no shipping or tax |
| OrderController.TotalIsSum | backend/src/controllers/orderController.js:55-80 | the accumulated total is the plain sum of the line totals, or NaN when a line total is NaN |
| OrderController.ClientPriceIgnored | backend/src/controllers/orderController.js:56-82 | two requests that differ only in the client's prices lead to the same decision |
| OrderController.SameIds | backend/src/controllers/orderController.js:34-40 | the id conversion reads only the productIds |
| OrderController.SameLookup | backend/src/controllers/orderController.js:42-74 | the lookup and repricing read only the quantities of the request lines |
| OrderController.Evaluate | backend/src/controllers/orderController.js:4-82 | the statements of `placeOrder` up to `create` reach the decision the specification function describes |
| OrderController.RunCheckout | backend/src/controllers/orderController.js:23-74 | the item loop, the id conversion, the lookup and the repricing reach the specification's decision |
| OrderController.OrderStore.PlaceOrder | backend/src/controllers/orderController.js:4-93 | a rejected request answers with its response and writes nothing; an accepted one appends exactly one order (the repriced lines, the computed total, a fresh id) and answers 201 with it; a failing `create` writes nothing and answers through the catch |
| OrderController.InsertByDate | backend/src/controllers/orderController.js:107 | inserting an order keeps every order and adds exactly that one |
| OrderController.InsertBounded | backend/src/controllers/orderController.js:107 | insertion adds no order newer than a bound all orders keep |
| OrderController.InsertKeepsOrder | backend/src/controllers/orderController.js:107 | inserting into a newest-first list keeps it newest first |
| OrderController.NewestFirst | backend/src/controllers/orderController.js:107 | the sort keeps exactly the same orders |
| OrderController.NewestFirstSorted | backend/src/controllers/orderController.js:107 | the sorted list is newest first |
| OrderController.GetUserOrders | backend/src/controllers/orderController.js:97-110 | a non-numeric user id gives exactly the 400; otherwise 200 with exactly the user's orders |
| OrderController.UserOrdersExact | backend/src/controllers/orderController.js:105-108 | an order is listed exactly when it is stored and belongs to the user |
| OrderController.UserOrdersNewestFirst | backend/src/controllers/orderController.js:107 | the listed orders are newest first |
| OrderController.FindOrder | backend/src/controllers/orderController.js:131-136 | the lookup finds an order matching both the id and the user, or none when no order matches both |
| OrderController.GetOrderById | backend/src/controllers/orderController.js:118-142 | the user id is checked before the order id (both 400); the answer is 200 exactly when an order matches both ids, and it is that order; otherwise 404 |
| OrderController.OpenedOrderIsListed | backend/src/controllers/orderController.js:105-142 | an order a user can open by id is one of the orders listed for that user |
| CartStore.FindProduct | frontend/ECommerce/src/hooks/useMockData.ts:39 | the cart entry of the product, or none when no entry has that id |
| CartStore.MockData.AddToCart | frontend/ECommerce/src/hooks/useMockData.ts:37-45 | the cart becomes the `addToCart` transform of the old cart; orders are unchanged |
| CartStore.AddExisting | frontend/ECommerce/src/hooks/useMockData.ts:39-41 | adding a product already in the cart raises that entry's quantity by `qty`, at the same position, and leaves every other entry as it was |
| CartStore.AddNew | frontend/ECommerce/src/hooks/useMockData.ts:43 | adding a new product prepends it with quantity `qty`, so the cart grows by exactly one |
| CartStore.MockData.UpdateQuantity | frontend/ECommerce/src/hooks/useMockData.ts:47-49 | the cart becomes the `updateQuantity` transform of the old cart; orders are unchanged |
| CartStore.UpdateExact | frontend/ECommerce/src/hooks/useMockData.ts:47-49 | matching entries take exactly the given quantity (0 and negatives included), others are unchanged, and an unknown id changes nothing |
| CartStore.MockData.RemoveFromCart | frontend/ECommerce/src/hooks/useMockData.ts:51-53 | the cart becomes the `removeFromCart` transform of the old cart; orders are unchanged |
| CartStore.RemoveExact | frontend/ECommerce/src/hooks/useMockData.ts:51-53 | with unique ids, removal drops exactly that entry and keeps the rest in order |
| CartStore.RemoveAbsent | frontend/ECommerce/src/hooks/useMockData.ts:52 | removing an absent product leaves the cart as it was |
| CartStore.RemoveAround | frontend/ECommerce/src/hooks/useMockData.ts:52 | removal works on the parts on either side of an entry of that product independently |
| CartStore.RemoveIdempotent | frontend/ECommerce/src/hooks/useMockData.ts:52 | removing twice is removing once, and nothing of that product remains |
| CartStore.TransformsKeepIdsUnique | frontend/ECommerce/src/hooks/useMockData.ts:37-53 | add, update and remove all keep product ids unique |
| CartStore.SubsequenceKeepsUnique | frontend/ECommerce/src/hooks/useMockData.ts:52 | a filtered cart keeps ids unique |
| CartStore.CartSummary | frontend/ECommerce/src/hooks/useMockData.ts:78-84 | the subtotal is the sum of price × quantity; shipping is 0 exactly when the subtotal exceeds 200, and 12.99 otherwise; tax is 8% of the subtotal; the total is their sum |
| CartStore.ShippingBoundary | frontend/ECommerce/src/hooks/useMockData.ts:80 | a subtotal of exactly 200 still pays 12.99; 200.01 ships free |
| CartStore.SummaryExamples | frontend/ECommerce/src/hooks/useMockData.ts:78-84 | two worked summaries, one above and one below the free-shipping line |
| CartStore.AddExistingSubtotal | frontend/ECommerce/src/hooks/useMockData.ts:39-79 | adding to an existing entry raises the subtotal by price × qty |
| CartStore.AddNewSubtotal | frontend/ECommerce/src/hooks/useMockData.ts:43-79 | adding a new product raises the subtotal by price × qty |
| CartStore.SubtotalCons | frontend/ECommerce/src/hooks/useMockData.ts:79 | the subtotal of a prepended entry is its cost plus the rest |
| CartStore.SubtotalBump | frontend/ECommerce/src/hooks/useMockData.ts:41-79 | raising one entry's quantity by d raises the subtotal by price × d |
| CartStore.RequestMirrorsCart | frontend/ECommerce/src/hooks/useMockData.ts:57-66 | the request has one line per cart entry, in cart order; each line carries the id, the quantity and the client's price; the total is the summary total |
| CartStore.MockData.SendOrder | frontend/ECommerce/src/hooks/useMockData.ts:57-66 | the request is built from the cart as it stands when `placeOrder` starts; nothing changes |
| CartStore.MockData.CompleteOrder | frontend/ECommerce/src/hooks/useMockData.ts:68-75 | after a success the new order is prepended to the orders of that moment and the cart is emptied whatever it then holds; after a failure nothing changes |
| CartStore.MockData.PlaceOrder | frontend/ECommerce/src/hooks/useMockData.ts:55-76 | the request is built from the cart; on success the new order is prepended and the cart is emptied; on failure neither cart nor orders change |
| CartStore.MockData.PlaceOrderWhileAdding | frontend/ECommerce/src/hooks/useMockData.ts:55-76 | a product added while the request is in flight is not in the request, and a successful answer still empties the cart, so that product is dropped without being ordered; a failed answer keeps it |
| CartStore.Decremented | frontend/ECommerce/src/screens/CartScreen.tsx:183-186 | the minus button's quantity is one less, but never below 1 |
| CartStore.ButtonsKeepPositive | frontend/ECommerce/src/screens/CartScreen.tsx:183-195 | the minus and plus buttons keep every quantity at least 1 |
| Validators.EmailShapedIsPattern | frontend/ECommerce/src/utils/validators.ts:7 | the computed shape test holds exactly when the string matches `^[^\s@]+@[^\s@]+\.[^\s@]+$`, written as a predicate on positions |
| Validators.ShapedMatches | frontend/ECommerce/src/utils/validators.ts:7 | a string of the computed shape matches the pattern |
| Validators.MatchesShaped | frontend/ECommerce/src/utils/validators.ts:7 | a string matching the pattern has the computed shape |
| Validators.Email | frontend/ECommerce/src/utils/validators.ts:5-10 | "Email is required" exactly for an empty or blank input; null exactly when the input is not blank and the raw string matches the pattern |
| Validators.EmailKeepsSurroundingSpace | frontend/ECommerce/src/utils/validators.ts:6-8 | the pattern is tested on the untrimmed string, so a leading space makes a valid address invalid |
| Validators.Password | frontend/ECommerce/src/utils/validators.ts:12-17 | null exactly when the length is 6 to 128; "required" exactly for the empty string; "too short" exactly for lengths 1 to 5 |
| Validators.Name | frontend/ECommerce/src/utils/validators.ts:19-24 | null exactly when the trimmed length is 2 to 50; "required" exactly when the trimmed name is empty; "too short" exactly at trimmed length 1 |
| Validators.Required | frontend/ECommerce/src/utils/validators.ts:26-29 | null exactly when the value is not blank; otherwise the message names the field |
| Validators.MinLength | frontend/ECommerce/src/utils/validators.ts:31-34 | null exactly when the length is at least `min`; otherwise the message names the field |
| Validators.MaxLength | frontend/ECommerce/src/utils/validators.ts:36-39 | null exactly when the length is at most `max`; otherwise the message names the field |
| Validators.LengthBoundaries | frontend/ECommerce/src/utils/validators.ts:12-39 | both bounds accept a length equal to the bound and reject one beyond it; a password of exactly 128 characters passes |
| Validators.ProductOf | frontend/ECommerce/src/utils/validators.ts:43-53 | a value that passes `validateProduct` reads back as a product with a positive price |
| Validators.ProductRoundTrip | frontend/ECommerce/src/utils/validators.ts:43-53 | a product's JSON passes `validateProduct` exactly when its price is positive, and then reads back as the same product |
| Validators.CartItemRoundTrip | frontend/ECommerce/src/utils/validators.ts:55-62 | a cart item's JSON passes `validateCartItem` exactly when its price and quantity are positive |
| Validators.OrderData | frontend/ECommerce/src/utils/validators.ts:64-85 | a non-array or empty list is refused first; then a list with any invalid item; then, with all items valid, "Invalid order total" exactly when the total is not a positive number; then "Order total does not match items" exactly when the items' sum is more than 0.01 from it; null exactly when all four checks pass |
| Validators.CartJson | frontend/ECommerce/src/utils/validators.ts:64 | one JSON cart item per cart entry |
| Validators.ItemsTotalIsSubtotal | frontend/ECommerce/src/utils/validators.ts:79 | the validator's sum over a cart's JSON is the cart hook's subtotal |
| Validators.CartItemsValid | frontend/ECommerce/src/utils/validators.ts:69-73 | the JSON of entries with positive prices and quantities passes the item check |
| Validators.SubtotalAccepted | frontend/ECommerce/src/utils/validators.ts:75-77 | the subtotal of a non-empty cart of positive entries is a positive total |
| Validators.SubtotalPositive | frontend/ECommerce/src/hooks/useMockData.ts:79 | a non-empty cart of positive entries has a positive subtotal |
| Validators.SummaryTotalRejected | frontend/ECommerce/src/utils/validators.ts:79-82 | checked against a non-empty cart of positive entries, the cart summary's total (with shipping and tax) is always refused with "Order total does not match items" |
| Validators.ApiResponse | frontend/ECommerce/src/utils/validators.ts:88-100 | "Invalid response format" exactly for a value that is neither an object nor an array; null exactly when every expected field is present, own or inherited; otherwise the first missing field in list order is named |
| Validators.NetworkResponse | frontend/ECommerce/src/utils/validators.ts:103-108 | null exactly when the response is ok; otherwise the message carries the status and status text |
| Validation.ValidateEmail | frontend/ECommerce/src/utils/validation.ts:1-6 | "required" exactly for the empty string; a null result implies an `@` and a pattern match |
| Validation.EmailAtTestRedundant | frontend/ECommerce/src/utils/validation.ts:2-5 | the result depends only on emptiness and the pattern, so the `@` test adds nothing |
| Validation.EmailChecksAgree | frontend/ECommerce/src/utils/validation.ts:1-6 | the two e-mail checks agree except on a non-empty blank input, which one calls invalid and the other missing |
| Validation.ValidatePassword | frontend/ECommerce/src/utils/validation.ts:8-12 | null exactly when the length is at least 6, with no upper bound; "required" exactly for the empty string |
| Validation.PasswordChecksAgree | frontend/ECommerce/src/utils/validation.ts:8-12 | the two password checks agree exactly up to 128 characters |
| Validation.ValidateName | frontend/ECommerce/src/utils/validation.ts:14-18 | "required" only for the empty string; null exactly when the name is non-empty and its trimmed length is at least 2 |
| Validation.BlankNameTooShort | frontend/ECommerce/src/utils/validation.ts:14-18 | a name of spaces gets "at least 2 characters" here, while the other check calls it missing |
| Validation.ValidateRequired | frontend/ECommerce/src/utils/validation.ts:20-23 | null exactly when the value is not blank; otherwise the message names the field |
| Validation.RequiredChecksAgree | frontend/ECommerce/src/utils/validation.ts:20-23 | both required-field checks give the same answer |
| ErrorHandler.NewAppError | frontend/ECommerce/src/utils/errorHandler.ts:3-12 | the constructor makes an AppError that keeps the given message |
| ErrorHandler.NewNetworkError | frontend/ECommerce/src/utils/errorHandler.ts:14-19 | a NetworkError has code NETWORK_ERROR and no status code |
| ErrorHandler.NewValidationError | frontend/ECommerce/src/utils/errorHandler.ts:21-26 | a ValidationError has code VALIDATION_ERROR, no status code, and its field |
| ErrorHandler.NewAuthError | frontend/ECommerce/src/utils/errorHandler.ts:28-33 | an AuthError has code AUTH_ERROR and status code 401 |
| ErrorHandler.MessageOr | frontend/ECommerce/src/utils/errorHandler.ts:46-54 | the error's message, or the fallback when it is missing or empty, is non-empty exactly when one of them is |
| ErrorHandler.HandleApiError | frontend/ECommerce/src/utils/errorHandler.ts:37-55 | network-like errors become NetworkError before any status test; then status or statusCode 401 becomes AuthError; then 400 becomes a ValidationError with the error's message or "Invalid request"; then a status of 500 or more becomes the generic server AppError; anything else becomes an AppError with its message or "Something went wrong" |
| ErrorHandler.NetworkBeatsStatus | frontend/ECommerce/src/utils/errorHandler.ts:38-44 | a network-like error is a NetworkError even when it carries a status |
| ErrorHandler.StatusIsStrict | frontend/ECommerce/src/utils/errorHandler.ts:42 | only the number 401 is an auth status; the string "401" is not |
| ErrorHandler.AlertMessage | frontend/ECommerce/src/utils/errorHandler.ts:59-69 | fixed texts for NetworkError and AuthError; a ValidationError's own message; otherwise the error's message, or the default text when it is empty |
| ErrorHandler.ShowError | frontend/ECommerce/src/utils/errorHandler.ts:58-72 | the alert uses the given title or "Error", and the chosen message |
| ErrorHandler.EmptyAlertOnlyForValidation | frontend/ECommerce/src/utils/errorHandler.ts:59-69 | the alert text is empty exactly for a ValidationError with an empty message |
| ErrorHandler.ClassifiedAlertNeverEmpty | frontend/ECommerce/src/utils/errorHandler.ts:37-69 | an error passed through `handleApiError` is never shown with an empty text |
| ErrorHandler.WithRetry | frontend/ECommerce/src/utils/errorHandler.ts:91-114 | the loop reaches the result and the call count of the specification function, and waits `delay × k` before attempt k+1 |
| ErrorHandler.RetryBounded | frontend/ECommerce/src/utils/errorHandler.ts:98-101 | the operation is called at most `maxRetries` times; the first success is returned without further calls |
| ErrorHandler.AllFailClassified | frontend/ECommerce/src/utils/errorHandler.ts:104-106 | when all `maxRetries` attempts fail, the result is `handleApiError` of the last error |
| ErrorHandler.FractionalRetriesRethrow | frontend/ECommerce/src/utils/errorHandler.ts:98-113 | with a fractional `maxRetries`, no attempt equals it, so the last error is rethrown unclassified |
| ErrorHandler.NoAttempts | frontend/ECommerce/src/utils/errorHandler.ts:98-113 | with `maxRetries` below 1 the operation is never called and `undefined` is thrown |
| AuthMiddleware.Token | backend/src/middleware/authMiddleware.js:15 | the token is a space-free field of the header |
| AuthMiddleware.TokenAfterPrefix | backend/src/middleware/authMiddleware.js:11-15 | the token is what follows "Bearer " up to the next space |
| AuthMiddleware.BearerToken | backend/src/middleware/authMiddleware.js:11-15 | "Bearer " and a space-free token yield that token |
| AuthMiddleware.Protect | backend/src/middleware/authMiddleware.js:3-47 | `next` is called exactly when the header starts with "Bearer ", the token is non-empty, the secret is set, verification succeeds and the payload has a truthy userId; `req.user` is that userId; a missing or empty header, and an empty token, get 401 "Access denied. No token provided."; a non-empty header without the prefix gets 401 with the format message, whatever the secret; the 500 is given exactly when the header and token pass and the secret is unset or empty; "Invalid token payload" is given exactly when verification returns an object with a falsy userId; a `null` or `undefined` payload throws on `userId` and gets "Authentication failed"; every other refusal is 401 |
| AuthMiddleware.HeaderBeforeSecret | backend/src/middleware/authMiddleware.js:7-24 | a missing or badly prefixed header is refused with 401 even when the secret is missing, with the format message for a non-empty header |
| AuthMiddleware.PrefixIsExact | backend/src/middleware/authMiddleware.js:11-13 | the prefix is case-sensitive and needs its space |
| AuthMiddleware.PrefixAloneHasNoToken | backend/src/middleware/authMiddleware.js:15-19 | "Bearer " alone is refused for an empty token |
| AuthMiddleware.DoubleSpaceHasNoToken | backend/src/middleware/authMiddleware.js:15-19 | two spaces after the prefix leave an empty token |
| AuthMiddleware.ValidTokenPasses | backend/src/middleware/authMiddleware.js:26-33 | a well-formed header with a verified token reaches `next` with the payload's userId |
| AuthMiddleware.VerifyFailures | backend/src/middleware/authMiddleware.js:34-45 | each verification failure is a 401 with the message for expired, malformed or other failures |
| AuthController.ByEmail | backend/src/controllers/authController.js:65-68 | the lookup by e-mail finds the user with that e-mail, or none when no user has it |
| AuthController.ById | backend/src/controllers/authController.js:97-100 | the lookup by id finds the user with that id, or none when no user has it |
| AuthController.AtSignOf | backend/src/controllers/authController.js:61-63 | a string e-mail passes the `@` test exactly when it contains one; a value that is neither a string nor an array has no `includes` and throws |
| AuthController.Check | backend/src/controllers/authController.js:8-21 | passing the guards means the body was readable, the e-mail is a string with an `@`, the password is truthy, and at registration a string password has at least 6 characters |
| AuthController.CheckOrder | backend/src/controllers/authController.js:11-21 | a missing field gives 400 before the `@` test, which gives 400 before the length test |
| AuthController.LoginCheckOrder | backend/src/controllers/authController.js:57-63 | at login a missing field gives 400 before the `@` test, and a short password is not refused there |
| AuthController.StoredNameOf | backend/src/controllers/authController.js:31 | a falsy name is stored as null and a string name as itself |
| AuthController.UserStore.RegisterUser | backend/src/controllers/authController.js:6-50 | a registration that reaches a successful `create` appends one user with the hashed password and the stored name, and answers 201 with id, name, e-mail and token; any other registration writes nothing and answers with the refusal |
| AuthController.RegisterRefusal | backend/src/controllers/authController.js:11-48 | a refusal is 400, 409 or 500; it is 409 exactly when the e-mail is taken, or when `create` fails with P2002; a guard refusal (the missing-field, `@` and length 400s) is passed on as the answer |
| AuthController.RegisterKeepsKeyed | backend/src/controllers/authController.js:23-32 | a successful registration keeps ids and e-mails unique |
| AuthController.ByEmailAppend | backend/src/controllers/authController.js:23-32 | the new user is found by its e-mail |
| AuthController.RegisteredCanLogIn | backend/src/controllers/authController.js:28-81 | with a hash that `compare` accepts, the same e-mail and password log in as the user just created |
| AuthController.UserStore.LoginUser | backend/src/controllers/authController.js:53-86 | login answers as the specification function says, and writes nothing |
| AuthController.LoginAnswer | backend/src/controllers/authController.js:53-86 | a guard refusal (the missing-field 400, then the `@` 400) is the answer; after the guards an unknown e-mail gives 401 "Invalid credentials" and a non-string password 500; 200 exactly when the guards pass, the e-mail is stored, the password is a string and `compare` accepts it |
| AuthController.LoginHidesWhichFailed | backend/src/controllers/authController.js:65-73 | an unknown e-mail and a wrong password give the identical 401 "Invalid credentials" |
| AuthController.UserStore.GetUserProfile | backend/src/controllers/authController.js:89-111 | the profile answer is the specification function's |
| AuthController.ProfileAnswer | backend/src/controllers/authController.js:89-106 | exactly a non-numeric id gives 400; 200 exactly when the user exists, with id, name and e-mail of a stored user and no password; otherwise 404 |
| ErrorMiddleware.ErrorHandler | backend/src/middleware/errorMiddleware.js:2-49 | `details` is present exactly for a ValidationError without a known Prisma code, with `err.message` as details; every reply has a truthy status and message |
| ErrorMiddleware.PrismaCodeFirst | backend/src/middleware/errorMiddleware.js:6-22 | P2002, P2025 and P2003 answer 409, 404 and 400 with their messages, whatever the error's name |
| ErrorMiddleware.TokenNameReply | backend/src/middleware/errorMiddleware.js:33-43 | without a known Prisma code, JsonWebTokenError and TokenExpiredError answer 401 with their messages |
| ErrorMiddleware.DefaultReply | backend/src/middleware/errorMiddleware.js:46-48 | any other error answers with `err.status` exactly when it is truthy (else 500), and `err.message` exactly when it is truthy (else "Internal server error") |
| ErrorMiddleware.NotFound | backend/src/middleware/errorMiddleware.js:52-56 | the forwarded error has status 404 and a message that ends with the requested URL |
| ErrorMiddleware.NotFoundReply | backend/src/middleware/errorMiddleware.js:2-56 | an unmatched route is answered 404 with "Route not found - <url>" |
| Search.FilteredItems | frontend/ECommerce/src/hooks/useSearch.ts:17-22 | an empty query returns the items unchanged; a non-empty query keeps exactly the items whose key contains the query, ignoring case; the result is always an order-preserving subsequence |
| Search.QueryCaseIgnored | frontend/ECommerce/src/hooks/useSearch.ts:20 | lower-casing the query changes nothing |
| Search.OwnKeyMatches | frontend/ECommerce/src/hooks/useSearch.ts:20 | every key matches itself |
| Search.SearchState.ValidateSearch | frontend/ECommerce/src/hooks/useSearch.ts:8-15 | the query is accepted exactly when its length is not 1; the error is set when refused and cleared when accepted; the query is untouched |
| Search.SearchState.HandleSearchChange | frontend/ECommerce/src/hooks/useSearch.ts:24-27 | the query becomes the text even when it is refused; the error is set exactly for a one-character text |
| ProductList.CategoryList | frontend/ECommerce/src/screens/ProductListScreen.tsx:20 | one category per product, in product order |
| ProductList.Categories | frontend/ECommerce/src/screens/ProductListScreen.tsx:20 | each product's category is listed exactly once, and nothing else |
| ProductList.TabsInFirstOccurrenceOrder | frontend/ECommerce/src/screens/ProductListScreen.tsx:20 | the tabs follow the order of first occurrence |
| ProductList.Filtered | frontend/ECommerce/src/screens/ProductListScreen.tsx:23-26 | the listed products are an order-preserving subsequence, holding exactly the products that pass the tab filter |
| ProductList.AllShowsEverything | frontend/ECommerce/src/screens/ProductListScreen.tsx:21-26 | with no category selected (the start and "All") every product is listed, in order |
| ProductList.CategoryShowsExactly | frontend/ECommerce/src/screens/ProductListScreen.tsx:23-25 | with category c selected, the list is exactly the products of category c, in order |
| ProductList.EmptyCategoryShowsEverything | frontend/ECommerce/src/screens/ProductListScreen.tsx:24 | the tab of an empty category name lists every product, because "" is falsy |
| ProductList.TabNeverEmpty | frontend/ECommerce/src/screens/ProductListScreen.tsx:20-26 | every tab lists at least one product |
| ProductList.GetIcon | frontend/ECommerce/src/screens/ProductListScreen.tsx:210-217 | the fallback icon is chosen exactly when no keyword occurs in the lower-cased category |
| ProductList.IconIsFirstRule | frontend/ECommerce/src/screens/ProductListScreen.tsx:210-217 | the icon is that of the first keyword, in the order fashion, electronics, home, sports, books, that occurs in the lower-cased name |
| ProductList.IconPriority | frontend/ECommerce/src/screens/ProductListScreen.tsx:212-214 | with several keywords the earliest rule wins |
| ProductList.NumColumns | frontend/ECommerce/src/screens/ProductListScreen.tsx:252 | two columns in grid mode, one in list mode |
| ProductList.ListScreen.SelectAll | frontend/ECommerce/src/screens/ProductListScreen.tsx:203 | the "All" tab clears the selection and keeps the mode |
| ProductList.ListScreen.SelectCategory | frontend/ECommerce/src/screens/ProductListScreen.tsx:222 | a tab selects its category and keeps the mode |
| ProductList.ListScreen.ToggleGrid | frontend/ECommerce/src/screens/ProductListScreen.tsx:233-252 | the toggle flips between two columns and one and keeps the selection |
| ProductGrid.RowHeight | frontend/ECommerce/src/hooks/useProductGrid.ts:21 | big cards are 240 high, small ones 200 |
| ProductGrid.ItemLayout | frontend/ECommerce/src/hooks/useProductGrid.ts:20-24 | the layout reports the item's own index and the card size's row height |
| ProductGrid.RowsStack | frontend/ECommerce/src/hooks/useProductGrid.ts:22 | the items of a row share an offset of row × height, and the next row starts one height lower |
| ProductGrid.OffsetsIncrease | frontend/ECommerce/src/hooks/useProductGrid.ts:22 | a later item never sits above an earlier one |
| ProductGrid.OneColumnIsAList | frontend/ECommerce/src/hooks/useProductGrid.ts:22 | with one column, item i sits i heights down |
| ProductGrid.ColumnWrapper | frontend/ECommerce/src/hooks/useProductGrid.ts:29-33 | a row wrapper exists exactly for more than one column, with the card gap and no horizontal padding |
| LibTheme.IsDark | frontend/ECommerce/src/lib/ThemeContext.tsx:17 | the user's choice decides when there is one, otherwise the device's dark scheme |
| LibTheme.Toggled | frontend/ECommerce/src/lib/ThemeContext.tsx:20-22 | toggling stores the opposite of what is shown, which then holds under any device scheme |
| LibTheme.ToggleTwice | frontend/ECommerce/src/lib/ThemeContext.tsx:17-22 | two toggles show what was shown before |
| LibTheme.DeviceDecidesFirst | frontend/ECommerce/src/lib/ThemeContext.tsx:15-17 | before the first toggle the device decides |
| LibTheme.ThemeProvider.ToggleTheme | frontend/ECommerce/src/lib/ThemeContext.tsx:20-22 | the stored choice flips the theme shown, under any later device scheme |
| AppTheme.Flipped | frontend/ECommerce/src/context/ThemeContext.tsx:33-35 | the card size always changes |
| AppTheme.FlipTwice | frontend/ECommerce/src/context/ThemeContext.tsx:33-35 | two flips give the size back |
| AppTheme.AppProvider.ToggleTheme | frontend/ECommerce/src/context/ThemeContext.tsx:21-31 | the theme flips under any later device scheme; the card size is kept |
| AppTheme.AppProvider.SetCardType | frontend/ECommerce/src/context/ThemeContext.tsx:19-42 | the card size becomes the one given; the theme choice is kept |
| AppTheme.AppProvider.ToggleCardType | frontend/ECommerce/src/context/ThemeContext.tsx:33-35 | the card size flips and the theme choice is kept |

## Left out

- Rendering, navigation, styles, `Alert.alert` itself, `console` logging and `logError`: they display or record and decide nothing.
- CartStore.MockData.PlaceOrderWhileAdding: only an `addToCart` between sending and answering is written out. An update, a removal or a second `placeOrder` in flight go through the same `SendOrder`/`CompleteOrder` steps, but have no method of their own. React's batching of state updates is not modelled.
- The network and the database. API calls, `findMany`, `findUnique`, `findFirst` and `create` are modelled as lookups over a map or sequence, or as given failures. `loadProducts`/`loadOrders` are not modelled.
- The 500 answers of `getUserOrders`, `getOrderById` and `getUserProfile` when the database itself fails: the model's tables do not fail.
- The timers of `withRetry`. The waits are returned as a sequence of delays instead of being slept.
- `validateRequest` in errorMiddleware.js and the Joi schemas of validation.js: they belong to a schema library that is not part of this model.
- `getGridColumns`, `getGridPadding` and `getCardGap`. useProductGrid.ts imports them, but they are not defined in responsive.ts, so the column count is a positive parameter.
- The `key` string and the `Dimensions` subscription of useProductGrid.ts.
- The rest of responsive.ts: it scales by screen size and decides nothing.
- Number values are exact rationals, so IEEE rounding (for example of 12.99 or 0.08 × subtotal) is not modelled. NaN is modelled only where the server's arithmetic can produce it.
- String lengths count characters, not UTF-16 code units.
- `toLowerCase` is modelled on ASCII letters only.
- Quantities are unbounded integers, not 53-bit doubles.
- ErrorHandler.HandleApiError: a non-string `message` is not modelled, because the thrown error's message is a string or absent.
- AuthController.Check: a password sent as an array or object of fewer than six elements is modelled through its `length` like a string. No other shape of body value is distinguished.
- AuthMiddleware.Protect: a header that is not a string, for example one header repeated, is not modelled.
- The `createTheme` palettes and the `useTheme`/`useGrid` guards against a missing provider.
