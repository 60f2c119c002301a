# Product controller: request validation and outcome mapping

This project models `ProductController`, the HTTP controller of the catalog/order-intake
service of a small e-commerce backend. It covers the four handlers: `getProductById`,
`createProduct`, `createOrder` (the buy request, `POST /buy`) and `getProducts`. The
controller does not decide what happens to an order. Its job is to check each request in a
fixed order, then call the product service at most once, then turn the service's
`{success, message, ...}` answer into an HTTP status and a JSON body.

The model has two layers.

- `ControllerRules` (controller_rules.dfy) holds the handlers' decisions as pure functions
  of the request and of what the service answers:
  - `CheckOrderWith` and `CheckProduct` are the validation chains.
  - `ScanWith` is the in-order scan over the line items of a buy request.
  - Both scan and checks take the per-item check as a parameter. `CheckOrder` uses the
    corrected quantity test and `CheckOrderAsWritten` uses the test as written (see
    Findings).
  - `Respond` maps a service answer to a response.
  - The `*Outcome` functions describe each whole handler.

  The lemmas about these functions cover the ordering of the checks, which item wins when
  several are bad, and when 201 is possible.
- `Controller` (product_controller.dfy) holds the objects.
  - `ProductController` holds a `ProductService`.
  - Each handler is a method that runs the checks step by step and awaits at most one
    service call.
  - The early-exit `for...of` loop over the line items is `ScanLineItems`.
  - Each handler method is proved equal to its `*Outcome` function. Each also states the
    exact calls it appends to the service's call log.
  - The service is a stand-in. It answers from fixed functions (an oracle) and records
    every call. The service publishes to the `orders` queue, so "the service's log did not
    grow" also means "nothing was published".

`JsValues` (js_values.dfy) holds the JavaScript semantics the controller relies on:
truthiness (`!x`) and the comparison `x < 1`.

Encoding of a buy request:
- The body is either `NotAnArray` (anything `Array.isArray` rejects, including an absent
  or falsy body) or `ArrayBody(entries)`.
- Each entry is either `NullEntry` or `Item(id, quantity)`.
  - `NullEntry` is a `null` element. Reading `_id` of it throws, and the `catch` turns that
    into 500.
  - For an `Item`, `id` is any JSON value and is judged by truthiness. An empty string or
    `0` is a missing id.
  - `quantity` is either `Missing` (`undefined` or `null`) or `Given(n)`, where `n` is the
    number JavaScript converts the value to when comparing it with `1`.
- `req.user` is an `Option`. When it is absent, reading `username` throws (500), and this
  happens only after all body checks have passed.

Some behaviours of the controller are easy to miss:
- An empty or absent `username` gives 400 "Invalid user data", and only after the whole body
  is valid. The controller never answers 401. That status comes from the authentication
  middleware, which is not part of this model.
- A `null` line item gives 500 "Server error", not 400.
- Whatever the product service does with an unknown product id, the controller only maps
  its result. A `success: false` result gives 400 with the service's message. A thrown
  error gives 500 "Server error".
- `getProductById`'s catch block answers the lower-case message "server error".

## Model

| member | source | states |
|---|---|---|
| `JsValues.FalsyValues` | product/src/controllers/productController.js:28 | the values JavaScript's `!` treats as missing are exactly undefined, null, false, 0, NaN and the empty string |
| `JsValues.ComparisonsDisagreeOnlyOnNaN` | product/src/controllers/productController.js:58 | `n < 1` and "n is at least 1" are complementary on every number except NaN |
| `ControllerRules.Respond` | product/src/controllers/productController.js:15-18 | a service success gives the success status with the returned document; a failure gives the failure status with the service's message; a thrown error gives 500 with the handler's error text; the same mapping serves lines 35-38, 69-73 and 84-87 |
| `ControllerRules.GetProductByIdOutcome` | product/src/controllers/productController.js:11-22 | 200 with the product exactly when the service succeeds; 404 with its message exactly when it fails; 500 "server error" when it throws |
| `ControllerRules.GetProductsOutcome` | product/src/controllers/productController.js:81-92 | 200 with the product list exactly when the service succeeds; 404 with its message exactly when it fails; 500 "Server error" when it throws |
| `ControllerRules.CheckProduct` | product/src/controllers/productController.js:28-32 | a missing name gives 400 "Product name is required" even when the price is missing too; otherwise a falsy price (0 included) gives 400 "Product price is required"; the service is reached exactly when both are truthy, with the unmodified body |
| `ControllerRules.ProductServiceCalls` | product/src/controllers/productController.js:28-34 | createProduct calls the service at most once, exactly when name and price are both truthy, with the unmodified body |
| `ControllerRules.CreateProductOutcome` | product/src/controllers/productController.js:23-43 | the two check messages as 400s; 201 exactly when both fields are truthy and the service succeeds |
| `ControllerRules.RejectedProductNeverReachesService` | product/src/controllers/productController.js:28-34 | a product without a truthy name and price gets 400 whatever the service would answer, and no call is made |
| `ControllerRules.AcceptedProductMapsServiceResult` | product/src/controllers/productController.js:34-42 | for a valid product, a service failure gives 400 with its message, a success gives 201 with the created product, and a thrown error gives 500 "Server error" |
| `ControllerRules.EntryProblem` | product/src/controllers/productController.js:53-61 | a null element is reported as such; a falsy `_id` or an undefined/null quantity is reported as a missing id or quantity; otherwise a quantity that is not a number of at least one is reported as too small; an item passes exactly when none of these applies (corrected quantity test, see Findings) |
| `ControllerRules.EntryProblemAsWritten` | product/src/controllers/productController.js:54-60 | the per-item check as written: the same three problems in the same order, with the quantity rejected exactly when `quantity < 1` is true |
| `ControllerRules.NaNQuantityPassesAsWritten` | product/src/controllers/productController.js:58-60 | a quantity that converts to NaN passes the check as written and fails the corrected one |
| `ControllerRules.EntryChecksAgreeExceptOnNaN` | product/src/controllers/productController.js:54-60 | the as-written and corrected per-item checks give different verdicts exactly on items whose id and quantity are present and whose quantity is NaN |
| `ControllerRules.ScanWith` | product/src/controllers/productController.js:53-61 | for any per-item check, the scan reports "all valid" exactly when every item passes; otherwise it reports an index where that item fails with the reported problem and every earlier item passes |
| `ControllerRules.FirstOffendingEntryDecides` | product/src/controllers/productController.js:53-61 | whichever item is the first failing one, the scan reports exactly that index and its problem |
| `ControllerRules.LaterEntriesNotExamined` | product/src/controllers/productController.js:53-61 | once a list of items fails, appending any items leaves the verdict unchanged |
| `ControllerRules.ProblemResponse` | product/src/controllers/productController.js:53-60 | a null element is answered with 500 "Server error"; a missing id or quantity with 400 "Each product must have an id and quantity"; a quantity below one with 400 "Product quantity must be > 0" |
| `ControllerRules.CheckOrderWith` | product/src/controllers/productController.js:49-66 | a non-array or empty body gives 400 "Invalid products data"; the service is reached exactly when the body is a non-empty array of passing items and the username is truthy, with the unmodified items and that username; "Invalid user data" appears exactly when the body is valid and the username is falsy; a missing `req.user` gives 500 only once the body is valid; every rejection is 400 or 500 |
| `ControllerRules.CheckOrderAsWritten` | product/src/controllers/productController.js:49-66 | the checks exactly as written: every line item that reaches the service is the unmodified item, with a truthy `_id`, a present quantity and `quantity < 1` false (so a NaN quantity gets through); the list is non-empty |
| `ControllerRules.NaNQuantityOrderReachesServiceAsWritten` | product/src/controllers/productController.js:53-68 | as written, a buy request whose item has a NaN quantity passes every check and is handed to the service unchanged; the corrected checks answer 400 "Product quantity must be > 0" |
| `ControllerRules.OrderRejectedByFirstOffendingEntry` | product/src/controllers/productController.js:49-61 | for either item check (as written or corrected), in a non-empty array the first failing item alone decides the response, whatever the user and the later items: 500 for a null element, 400 "Each product must have an id and quantity" for a falsy id or missing quantity, 400 "Product quantity must be > 0" for a quantity below one |
| `ControllerRules.BodyCheckedBeforeUser` | product/src/controllers/productController.js:49-66 | for either item check, while the body is invalid the user makes no difference and the response is never "Invalid user data" |
| `ControllerRules.ForwardedItemsAreValid` | product/src/controllers/productController.js:53-68 | under the corrected check, every item handed to the service has a truthy id and a quantity of at least one, and the list is non-empty |
| `ControllerRules.OrderServiceCalls` | product/src/controllers/productController.js:68 | for either item check, createOrder calls the service at most once, exactly when every check passes, with the unmodified items and the username |
| `ControllerRules.CreateOrderOutcome` | product/src/controllers/productController.js:45-78 | for either item check, a rejected request gets the check's response and never 201; an accepted one gets 201, 400 or 500, and 201 exactly when the service succeeds |
| `ControllerRules.RejectedOrderNeverReachesService` | product/src/test/product.test.js:288-300 | for either item check, a rejected buy request gets the same response whatever the service would answer, makes no service call and never gets 201 |
| `ControllerRules.AcceptedOrderMapsServiceResult` | product/src/controllers/productController.js:68-77 | for either item check, for an accepted buy request a service failure gives 400 with its message, a success gives 201 with the order, and a thrown error gives 500 "Server error" |
| `ControllerRules.CreatedOnlyWhenValidAndServiceSucceeds` | product/src/controllers/productController.js:45-78 | for either item check, createOrder answers 201 exactly when every check passes and the service reports success |
| `Controller.ScanLineItems` | product/src/controllers/productController.js:53-61 | the early-exit loop over the items returns what `ScanWith` specifies for the corrected item check: the first failing item and its problem, or "all valid" |
| `Controller.ProductService.constructor` | product/src/controllers/productController.js:5 | a fresh service with the given answers and an empty call log |
| `Controller.ProductService.GetProductById` | product/src/controllers/productController.js:14 | logs the lookup and returns the service's answer for that id |
| `Controller.ProductService.CreateProduct` | product/src/controllers/productController.js:34 | logs the creation and returns the service's answer for that product |
| `Controller.ProductService.CreateOrder` | product/src/controllers/productController.js:68 | logs the order call with its items and username and returns the service's answer |
| `Controller.ProductService.GetProducts` | product/src/controllers/productController.js:83 | logs the listing and returns the service's answer |
| `Controller.ProductController.constructor` | product/src/controllers/productController.js:4-10 | the controller holds the given service |
| `Controller.ProductController.GetProductById` | product/src/controllers/productController.js:11-22 | makes exactly one lookup call and responds as `GetProductByIdOutcome` says |
| `Controller.ProductController.CreateProduct` | product/src/controllers/productController.js:23-43 | appends exactly `ProductServiceCalls` to the service's log and responds as `CreateProductOutcome` says |
| `Controller.ProductController.CreateOrder` | product/src/controllers/productController.js:45-78 | appends exactly `OrderServiceCalls` to the service's log (one call with the unmodified items and username when every check passes, none otherwise) and responds as `CreateOrderOutcome` says, both with the corrected quantity test (`EntryProblem`); the as-written test is modelled by `CheckOrderAsWritten` |
| `Controller.ProductController.GetProducts` | product/src/controllers/productController.js:81-92 | makes exactly one listing call and responds as `GetProductsOutcome` says |
| `Controller.BuyRequestScenarios` | product/src/test/product.test.js:239-300 | against one controller, an empty array gets 400 "Invalid products data" with no service call, and a single item `{_id: P1, quantity: 2}` for user `testuser` reaches the service once, unchanged, and gets 201 with the service's order |

## Findings

| source | as written | input that shows it | evidently intended | confidence | as-written member | corrected member |
|---|---|---|---|---|---|---|
| product/src/controllers/productController.js:58 | `if(prod.quantity < 1)` rejects a quantity only when the comparison is true, and every comparison with NaN is false | `[{"_id": "p1", "quantity": "abc"}]` (or a quantity of `{}`) passes every check and is handed to the service | reject with 400 "Product quantity must be > 0" unless the quantity is a number of at least one, as the comment and the message say | medium, not executed | `ControllerRules.EntryProblemAsWritten`, `ControllerRules.NaNQuantityOrderReachesServiceAsWritten` | `ControllerRules.EntryProblem`, `ControllerRules.ForwardedItemsAreValid` |

The program as written is `CheckOrderAsWritten`: the shared checks `CheckOrderWith` with
`EntryProblemAsWritten` as the item check. The lemmas about the order checks, the service call and the response take the item check
as a parameter, so they hold for the program as written and for the corrected one. The
controller object (`Controller.ScanLineItems`, `Controller.ProductController.CreateOrder`)
uses the corrected test. On every quantity
that is not NaN, the two tests agree (`EntryChecksAgreeExceptOnNaN`).

## Left out

- The product service is not part of this model. Its catalog lookup, price and name
  snapshots, order persistence and publishing to the `orders` queue are all left out. The
  service is an oracle: a fixed function from the call's arguments to its answer. A real
  service's answer also depends on its stored state.
- The message broker wrapper (product/src/test/messageBroker.js) and the JWT helper
  (auth/src/test/authHelper.js) are I/O and a foreign library. They are not part of this
  model.
- The authentication middleware and its 401 are not part of this model. Express routing,
  the `bind` calls in the constructor and `console.error` logging are left out too.
- The controller's constructor creates its own `ProductService`. The model passes the
  service in, so that its answers can be stated.
- Conversion of a string to a number is not modelled. `Given(n)` records the number a
  quantity converts to, not the original JSON value. The service therefore receives line
  items in this abstract form.
- `createProduct`'s body is modelled as a JSON object (absent fields read as `undefined`).
  A `null` body, on which reading `name` would throw, cannot come from the JSON body
  parser and is left out.
- A rejected service call (the `catch` paths) is one abstract outcome, `Threw`. What was
  thrown is not modelled.
- The response object is modelled as the returned `Response` value (status and JSON body),
  not as chained `res.status(...).json(...)` calls on an object.
