/**
 * The decisions of the catalog service's HTTP controller (`ProductController`), as pure
 * functions of the request and of what the product service answers: which checks run, in
 * which order, and which status and message each outcome produces.
 */
module ControllerRules {
  import opened Wrappers
  import opened JsValues

  // ---------------------------------------------------------------------------------------
  // Responses
  // ---------------------------------------------------------------------------------------

  const OK := 200
  const CREATED := 201
  const BAD_REQUEST := 400
  const NOT_FOUND := 404
  const SERVER_ERROR := 500

  const InvalidProductsData := "Invalid products data"
  const MissingIdOrQuantityText := "Each product must have an id and quantity"
  const QuantityText := "Product quantity must be > 0"
  const InvalidUserData := "Invalid user data"
  const NameRequired := "Product name is required"
  const PriceRequired := "Product price is required"
  /** The body every `catch` block of createProduct, createOrder and getProducts sends. */
  const ServerErrorText := "Server error"
  /** getProductById's `catch` block spells it in lower case. */
  const LookupErrorText := "server error"

  /** What `res.json(...)` sends: either `{message: ...}` or a document from the service. */
  datatype Payload = Message(text: string) | Json(doc: JsValue)

  /** The status and the JSON body written through `res.status(...).json(...)`. */
  datatype Response = Response(status: int, payload: Payload)

  function BadRequest(text: string): (r: Response) { Response(BAD_REQUEST, Message(text)) }

  // ---------------------------------------------------------------------------------------
  // The product service, seen only through what it answers
  // ---------------------------------------------------------------------------------------

  /** The `{success, message, ...}` object a product-service call resolves to, or `Threw`
      when the awaited call rejects (the controller's `catch` then answers 500). */
  datatype ServiceResult = Success(doc: JsValue) | Failure(message: string) | Threw

  /** Maps a service result to the response, as each handler does after its checks pass:
      `!success` gives `failStatus` with the service's message, success gives `okStatus`
      with the returned document, a thrown error gives 500 with `errorText`. */
  function Respond(result: ServiceResult, failStatus: int, okStatus: int, errorText: string): (r: Response)
    ensures result.Success? ==> r.status == okStatus && r.payload == Json(result.doc)
    ensures result.Failure? ==> r.status == failStatus && r.payload == Message(result.message)
    ensures result.Threw? ==> r.status == SERVER_ERROR && r.payload == Message(errorText)
  {
    match result
    case Success(doc) => Response(okStatus, Json(doc))
    case Failure(m) => Response(failStatus, Message(m))
    case Threw => Response(SERVER_ERROR, Message(errorText))
  }

  // ---------------------------------------------------------------------------------------
  // getProductById and getProducts
  // ---------------------------------------------------------------------------------------

  /** GET /:id — 404 with the service's message when it reports failure, 200 with the product. */
  function GetProductByIdOutcome(id: string, answer: string -> ServiceResult): (r: Response)
    ensures r.status == OK <==> answer(id).Success?
    ensures r.status == NOT_FOUND <==> answer(id).Failure?
    ensures answer(id).Success? ==> r.payload == Json(answer(id).doc)
    ensures answer(id).Failure? ==> r.payload == Message(answer(id).message)
    ensures answer(id).Threw? ==> r == Response(SERVER_ERROR, Message(LookupErrorText))
  {
    Respond(answer(id), NOT_FOUND, OK, LookupErrorText)
  }

  /** GET / — 404 with the service's message on failure, 200 with the product list. */
  function GetProductsOutcome(answer: ServiceResult): (r: Response)
    ensures r.status == OK <==> answer.Success?
    ensures r.status == NOT_FOUND <==> answer.Failure?
    ensures answer.Success? ==> r.payload == Json(answer.doc)
    ensures answer.Failure? ==> r.payload == Message(answer.message)
    ensures answer.Threw? ==> r == Response(SERVER_ERROR, Message(ServerErrorText))
  {
    Respond(answer, NOT_FOUND, OK, ServerErrorText)
  }

  // ---------------------------------------------------------------------------------------
  // createProduct
  // ---------------------------------------------------------------------------------------

  /** The JSON object posted to create a product; absent properties read as `undefined`. */
  datatype ProductBody = ProductBody(fields: map<string, JsValue>)
  {
    function Name(): JsValue { Property(fields, "name") }
    function Price(): JsValue { Property(fields, "price") }
  }

  /** Either the response a failed check writes, or the go-ahead to call the service. */
  datatype Check<T> = Reject(response: Response) | Proceed(args: T)

  /** The input validation of createProduct: the name is checked before the price, and both
      only for truthiness, so a price of 0 counts as missing. */
  function CheckProduct(body: ProductBody): (r: Check<ProductBody>)
    ensures !Truthy(body.Name()) ==> r == Reject(BadRequest(NameRequired))
    ensures Truthy(body.Name()) && !Truthy(body.Price()) ==> r == Reject(BadRequest(PriceRequired))
    ensures r.Proceed? <==> Truthy(body.Name()) && Truthy(body.Price())
    ensures r.Proceed? ==> r.args == body
  {
    if !Truthy(body.Name()) || !Truthy(body.Price()) then
      Reject(BadRequest(if !Truthy(body.Name()) then NameRequired else PriceRequired))
    else
      Proceed(body)
  }

  /** The arguments handed to the service's `createOrder`. */
  datatype OrderArgs = OrderArgs(items: seq<Entry>, username: JsValue)

  /** One call made on the product service, with its arguments. */
  datatype ServiceCall =
    | GetProductByIdCall(id: string)
    | CreateProductCall(product: ProductBody)
    | CreateOrderCall(args: OrderArgs)
    | GetProductsCall

  /** The calls createProduct makes on the product service: one, with the unmodified body,
      when the name and the price are both present, and none otherwise. */
  function ProductServiceCalls(body: ProductBody): (calls: seq<ServiceCall>)
    ensures |calls| <= 1
    ensures |calls| == 1 <==> Truthy(body.Name()) && Truthy(body.Price())
    ensures |calls| == 1 ==> calls[0] == CreateProductCall(body)
  {
    match CheckProduct(body)
    case Reject(_) => []
    case Proceed(product) => [CreateProductCall(product)]
  }

  /** POST / — the whole handler: the checks, then 400 or 201 from the service. */
  function CreateProductOutcome(body: ProductBody, answer: ProductBody -> ServiceResult): (r: Response)
    ensures !Truthy(body.Name()) ==> r == BadRequest(NameRequired)
    ensures Truthy(body.Name()) && !Truthy(body.Price()) ==> r == BadRequest(PriceRequired)
    ensures r.status == CREATED <==> Truthy(body.Name()) && Truthy(body.Price()) && answer(body).Success?
  {
    match CheckProduct(body)
    case Reject(response) => response
    case Proceed(product) => Respond(answer(product), BAD_REQUEST, CREATED, ServerErrorText)
  }

  /** A product without a truthy name and price never reaches the service: its response is
      400 whatever the service would have answered, and no call is made. */
  lemma RejectedProductNeverReachesService(body: ProductBody, answer: ProductBody -> ServiceResult,
                                           other: ProductBody -> ServiceResult)
    requires !(Truthy(body.Name()) && Truthy(body.Price()))
    ensures CreateProductOutcome(body, answer) == CreateProductOutcome(body, other)
    ensures CreateProductOutcome(body, answer).status == BAD_REQUEST
    ensures ProductServiceCalls(body) == []
  {
  }

  /** A valid product's response is the service's: 400 with its message when it fails, 201
      with the created product when it succeeds, 500 "Server error" when the call throws. */
  lemma AcceptedProductMapsServiceResult(body: ProductBody, answer: ProductBody -> ServiceResult)
    requires Truthy(body.Name()) && Truthy(body.Price())
    ensures var result := answer(body);
            var r := CreateProductOutcome(body, answer);
            (result.Failure? ==> r == BadRequest(result.message)) &&
            (result.Success? ==> r == Response(CREATED, Json(result.doc))) &&
            (result.Threw? ==> r == Response(SERVER_ERROR, Message(ServerErrorText)))
  {
  }

  // ---------------------------------------------------------------------------------------
  // createOrder: line items
  // ---------------------------------------------------------------------------------------

  /** The `quantity` of a line item as the controller observes it: `Missing` when it is
      `undefined` or `null`, otherwise the number JavaScript coerces it to when comparing. */
  datatype Quantity = Missing | Given(number: NumberValue)

  /** One element of the buy request's array. `NullEntry` is a `null` element, on which
      reading `_id` throws; any other non-object element reads as an `Item` whose `_id` is
      `undefined`. */
  datatype Entry = NullEntry | Item(id: JsValue, quantity: Quantity)

  /** The buy request's body: an array of line items, or anything else (absent, falsy, an
      object, a primitive), which `Array.isArray` rejects. */
  datatype Body = NotAnArray | ArrayBody(entries: seq<Entry>)

  /** What is wrong with the first offending line item. */
  datatype Problem = NullElement | MissingIdOrQuantity | QuantityBelowOne

  /** The two per-item checks, applied in order: an item needs a truthy `_id` and a quantity
      that is neither `undefined` nor `null`, then a quantity of at least one. */
  function EntryProblem(e: Entry): (p: Option<Problem>)
    ensures e.NullEntry? ==> p == Some(NullElement)
    ensures e.Item? && (!Truthy(e.id) || e.quantity.Missing?) ==> p == Some(MissingIdOrQuantity)
    ensures e.Item? && Truthy(e.id) && e.quantity.Given? && !AtLeastOne(e.quantity.number) ==>
              p == Some(QuantityBelowOne)
    ensures p == None <==> e.Item? && Truthy(e.id) && e.quantity.Given? && AtLeastOne(e.quantity.number)
  {
    match e
    case NullEntry => Some(NullElement)
    case Item(id, quantity) =>
      if !Truthy(id) || quantity.Missing? then Some(MissingIdOrQuantity)
      else if !AtLeastOne(quantity.number) then Some(QuantityBelowOne)
      else None
  }

  /** The quantity check exactly as written, `prod.quantity < 1`, which is false for NaN. */
  function EntryProblemAsWritten(e: Entry): (p: Option<Problem>)
    ensures e.NullEntry? ==> p == Some(NullElement)
    ensures e.Item? && (!Truthy(e.id) || e.quantity.Missing?) ==> p == Some(MissingIdOrQuantity)
    ensures e.Item? && Truthy(e.id) && e.quantity.Given? && LessThanOne(e.quantity.number) ==>
              p == Some(QuantityBelowOne)
    ensures p == None <==> e.Item? && Truthy(e.id) && e.quantity.Given? && !LessThanOne(e.quantity.number)
  {
    match e
    case NullEntry => Some(NullElement)
    case Item(id, quantity) =>
      if !Truthy(id) || quantity.Missing? then Some(MissingIdOrQuantity)
      else if LessThanOne(quantity.number) then Some(QuantityBelowOne)
      else None
  }

  /** A quantity that coerces to NaN (the string "abc", the object {}) passes the check as
      written; the corrected check rejects it. */
  lemma NaNQuantityPassesAsWritten()
    ensures EntryProblemAsWritten(Item(Str("p1"), Given(NaN))) == None
    ensures EntryProblem(Item(Str("p1"), Given(NaN))) == Some(QuantityBelowOne)
  {
  }

  /** The two per-item checks agree on every line item whose quantity is not NaN. */
  lemma EntryChecksAgreeExceptOnNaN(e: Entry)
    ensures EntryProblem(e) != EntryProblemAsWritten(e) <==>
              e.Item? && Truthy(e.id) && e.quantity.Given? && e.quantity.number.NaN?
  {
  }

  /** The outcome of the scan over the line items: all valid, or the index of the first
      offending item and what is wrong with it. */
  datatype Scan = AllValid | FirstProblem(index: nat, problem: Problem)

  /** The `for...of` scan under a given per-item check (the corrected `EntryProblem`, or
      `EntryProblemAsWritten`): items are checked in array order and the first offending one
      decides. */
  function ScanWith(check: Entry -> Option<Problem>, entries: seq<Entry>): (r: Scan)
    ensures r.AllValid? <==> forall i | 0 <= i < |entries| :: check(entries[i]) == None
    ensures r.FirstProblem? ==>
              r.index < |entries| && check(entries[r.index]) == Some(r.problem) &&
              forall j | 0 <= j < r.index :: check(entries[j]) == None
  {
    if entries == [] then AllValid
    else match check(entries[0])
      case Some(p) => FirstProblem(0, p)
      case None =>
        match ScanWith(check, entries[1..])
        case AllValid => AllValid
        case FirstProblem(k, p) => FirstProblem(k + 1, p)
  }

  /** Whichever item is the first offending one, the scan reports exactly it. */
  lemma FirstOffendingEntryDecides(check: Entry -> Option<Problem>, entries: seq<Entry>, k: nat)
    requires k < |entries| && check(entries[k]).Some?
    requires forall j | 0 <= j < k :: check(entries[j]) == None
    ensures ScanWith(check, entries) == FirstProblem(k, check(entries[k]).value)
  {
  }

  /** Items after the first offending one are never examined: appending anything to a list
      that already fails leaves the verdict unchanged. */
  lemma {:induction false} LaterEntriesNotExamined(check: Entry -> Option<Problem>,
                                                   prefix: seq<Entry>, suffix: seq<Entry>)
    requires ScanWith(check, prefix).FirstProblem?
    ensures ScanWith(check, prefix + suffix) == ScanWith(check, prefix)
  {
    assert prefix != [];
    assert (prefix + suffix)[0] == prefix[0];
    if check(prefix[0]) == None {
      assert (prefix + suffix)[1..] == prefix[1..] + suffix;
      LaterEntriesNotExamined(check, prefix[1..], suffix);
    }
  }

  /** The response for the first offending item: a `null` element makes `prod._id` throw,
      which the `catch` turns into 500; the two checks answer 400 with their own messages. */
  function ProblemResponse(p: Problem): (r: Response)
    ensures p == NullElement ==> r == Response(SERVER_ERROR, Message(ServerErrorText))
    ensures p == MissingIdOrQuantity ==> r == BadRequest(MissingIdOrQuantityText)
    ensures p == QuantityBelowOne ==> r == BadRequest(QuantityText)
  {
    match p
    case NullElement => Response(SERVER_ERROR, Message(ServerErrorText))
    case MissingIdOrQuantity => BadRequest(MissingIdOrQuantityText)
    case QuantityBelowOne => BadRequest(QuantityText)
  }

  // ---------------------------------------------------------------------------------------
  // createOrder: the checks
  // ---------------------------------------------------------------------------------------

  /** The body passes every check of createOrder under a per-item check: a non-empty array of
      line items that all pass. */
  ghost predicate ValidBodyWith(check: Entry -> Option<Problem>, body: Body)
  {
    body.ArrayBody? && body.entries != [] &&
    forall i | 0 <= i < |body.entries| :: check(body.entries[i]) == None
  }

  /** The checks of createOrder, in source order, under a per-item check. `user` is
      `req.user`: `None` when it is missing, in which case reading `username` throws (500)
      — but only once the body is valid. */
  function CheckOrderWith(check: Entry -> Option<Problem>, body: Body, user: Option<JsValue>): (r: Check<OrderArgs>)
    ensures body.NotAnArray? || body.entries == [] ==> r == Reject(BadRequest(InvalidProductsData))
    ensures r.Proceed? <==> ValidBodyWith(check, body) && user.Some? && Truthy(user.value)
    ensures r.Proceed? ==> r.args == OrderArgs(body.entries, user.value)
    ensures r == Reject(BadRequest(InvalidUserData)) <==>
              ValidBodyWith(check, body) && user.Some? && !Truthy(user.value)
    ensures ValidBodyWith(check, body) && user.None? ==> r == Reject(Response(SERVER_ERROR, Message(ServerErrorText)))
    ensures r.Reject? ==> r.response.status in {BAD_REQUEST, SERVER_ERROR}
  {
    if body.NotAnArray? || body.entries == [] then Reject(BadRequest(InvalidProductsData))
    else match ScanWith(check, body.entries)
      case FirstProblem(_, p) => Reject(ProblemResponse(p))
      case AllValid =>
        match user
        case None => Reject(Response(SERVER_ERROR, Message(ServerErrorText)))
        case Some(username) =>
          if !Truthy(username) then Reject(BadRequest(InvalidUserData))
          else Proceed(OrderArgs(body.entries, username))
  }

  /** createOrder's checks with the corrected quantity test (see EntryProblem), which the
      controller model uses. */
  function CheckOrder(body: Body, user: Option<JsValue>): (r: Check<OrderArgs>)
  {
    CheckOrderWith(EntryProblem, body, user)
  }

  /** createOrder's checks exactly as written, with `prod.quantity < 1`: every line item that
      reaches the service has a truthy `_id` and a quantity for which `< 1` is false — which
      includes a quantity that coerces to NaN. */
  function CheckOrderAsWritten(body: Body, user: Option<JsValue>): (r: Check<OrderArgs>)
    ensures r.Proceed? ==>
              body.ArrayBody? && r.args.items == body.entries && r.args.items != [] &&
              forall i | 0 <= i < |r.args.items| ::
                r.args.items[i].Item? && Truthy(r.args.items[i].id) && r.args.items[i].quantity.Given? &&
                !LessThanOne(r.args.items[i].quantity.number)
  {
    CheckOrderWith(EntryProblemAsWritten, body, user)
  }

  /** As written, a buy request whose only item has a quantity that coerces to NaN passes
      every check and is handed to the service unchanged; the corrected checks answer 400. */
  lemma NaNQuantityOrderReachesServiceAsWritten()
    ensures var items := [Item(Str("p1"), Given(NaN))];
            CheckOrderAsWritten(ArrayBody(items), Some(Str("u"))) == Proceed(OrderArgs(items, Str("u"))) &&
            CheckOrder(ArrayBody(items), Some(Str("u"))) == Reject(BadRequest(QuantityText))
  {
  }

  /** In a non-empty array, the first offending line item alone decides the response,
      whatever the user and whatever follows it: a `null` element gives 500, a falsy `_id`
      or a missing quantity gives 400 "Each product must have an id and quantity", and a
      quantity below one gives 400 "Product quantity must be > 0". Holds for either item check. */
  lemma OrderRejectedByFirstOffendingEntry(check: Entry -> Option<Problem>, body: Body,
                                           user: Option<JsValue>, k: nat)
    requires body.ArrayBody? && k < |body.entries| && check(body.entries[k]).Some?
    requires forall j | 0 <= j < k :: check(body.entries[j]) == None
    ensures CheckOrderWith(check, body, user) == Reject(ProblemResponse(check(body.entries[k]).value))
    ensures var p := check(body.entries[k]);
            (p == Some(NullElement) ==>
               CheckOrderWith(check, body, user) == Reject(Response(SERVER_ERROR, Message(ServerErrorText)))) &&
            (p == Some(MissingIdOrQuantity) ==>
               CheckOrderWith(check, body, user) == Reject(BadRequest(MissingIdOrQuantityText))) &&
            (p == Some(QuantityBelowOne) ==>
               CheckOrderWith(check, body, user) == Reject(BadRequest(QuantityText)))
  {
  }

  /** The body checks come first: while the body is invalid, the user makes no difference. */
  lemma BodyCheckedBeforeUser(check: Entry -> Option<Problem>, body: Body,
                              user: Option<JsValue>, other: Option<JsValue>)
    requires !ValidBodyWith(check, body)
    ensures CheckOrderWith(check, body, user) == CheckOrderWith(check, body, other)
    ensures CheckOrderWith(check, body, user).Reject?
    ensures CheckOrderWith(check, body, user).response != BadRequest(InvalidUserData)
  {
  }

  /** Every line item that reaches the service under the corrected check has a truthy `_id`
      and a quantity of at least one. */
  lemma ForwardedItemsAreValid(body: Body, user: Option<JsValue>)
    requires CheckOrder(body, user).Proceed?
    ensures var items := CheckOrder(body, user).args.items;
            items != [] &&
            forall i | 0 <= i < |items| ::
              items[i].Item? && Truthy(items[i].id) && items[i].quantity.Given? &&
              AtLeastOne(items[i].quantity.number)
  {
  }

  // ---------------------------------------------------------------------------------------
  // createOrder: the service call and the response
  // ---------------------------------------------------------------------------------------

  /** The calls createOrder makes on the product service under an item check: one, with the
      unmodified line items and the username, when every check passes, and none otherwise. */
  function OrderServiceCalls(check: Entry -> Option<Problem>, body: Body, user: Option<JsValue>): (calls: seq<ServiceCall>)
    ensures |calls| <= 1
    ensures |calls| == 1 <==> ValidBodyWith(check, body) && user.Some? && Truthy(user.value)
    ensures |calls| == 1 ==> calls[0] == CreateOrderCall(OrderArgs(body.entries, user.value))
  {
    match CheckOrderWith(check, body, user)
    case Reject(_) => []
    case Proceed(args) => [CreateOrderCall(args)]
  }

  /** POST /buy under an item check — the whole handler: the checks, then 400 or 201 from
      the service. */
  function CreateOrderOutcome(check: Entry -> Option<Problem>, body: Body, user: Option<JsValue>,
                              answer: OrderArgs -> ServiceResult): (r: Response)
    ensures CheckOrderWith(check, body, user).Reject? ==>
              r == CheckOrderWith(check, body, user).response && r.status != CREATED
    ensures CheckOrderWith(check, body, user).Proceed? ==>
              r.status in {CREATED, BAD_REQUEST, SERVER_ERROR} &&
              (r.status == CREATED <==> answer(OrderArgs(body.entries, user.value)).Success?)
  {
    match CheckOrderWith(check, body, user)
    case Reject(response) => response
    case Proceed(args) => Respond(answer(args), BAD_REQUEST, CREATED, ServerErrorText)
  }

  /** A rejected order is answered without consulting the service: its response is the same
      whatever the service would have said, and no call is made. */
  lemma RejectedOrderNeverReachesService(check: Entry -> Option<Problem>, body: Body, user: Option<JsValue>,
                                         answer: OrderArgs -> ServiceResult, other: OrderArgs -> ServiceResult)
    requires CheckOrderWith(check, body, user).Reject?
    ensures CreateOrderOutcome(check, body, user, answer) == CreateOrderOutcome(check, body, user, other)
    ensures OrderServiceCalls(check, body, user) == []
    ensures CreateOrderOutcome(check, body, user, answer).status != CREATED
  {
  }

  /** An accepted order's response is the service's: 400 with its message when it fails,
      201 with the created order when it succeeds. */
  lemma AcceptedOrderMapsServiceResult(check: Entry -> Option<Problem>, body: Body, user: Option<JsValue>,
                                       answer: OrderArgs -> ServiceResult)
    requires ValidBodyWith(check, body) && user.Some? && Truthy(user.value)
    ensures var result := answer(OrderArgs(body.entries, user.value));
            var r := CreateOrderOutcome(check, body, user, answer);
            (result.Failure? ==> r == BadRequest(result.message)) &&
            (result.Success? ==> r == Response(CREATED, Json(result.doc))) &&
            (result.Threw? ==> r == Response(SERVER_ERROR, Message(ServerErrorText)))
  {
  }

  /** 201 is returned exactly when every check passes and the service reports success. */
  lemma CreatedOnlyWhenValidAndServiceSucceeds(check: Entry -> Option<Problem>, body: Body,
                                               user: Option<JsValue>, answer: OrderArgs -> ServiceResult)
    ensures CreateOrderOutcome(check, body, user, answer).status == CREATED <==>
              ValidBodyWith(check, body) && user.Some? && Truthy(user.value) &&
              answer(OrderArgs(body.entries, user.value)).Success?
  {
  }
}
