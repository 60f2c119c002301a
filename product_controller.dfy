/**
 * The controller object itself: `ProductController` holds a product service and each
 * handler runs its checks, awaits at most one service call and writes one response.
 * The service is a stand-in that answers from fixed functions and records every call made
 * on it, so that "the service (and the broker publish behind it) was not reached" is a
 * statement about its call log.
 */
module Controller {
  import opened Wrappers
  import opened JsValues
  import opened ControllerRules

  /** The product service as the controller sees it: what it answers to each request, and
      the log of requests made so far. Its catalog and order persistence, and the publish to
      the `orders` queue that its createOrder performs, are not part of this model. */
  class ProductService {
    const lookupAnswer: string -> ServiceResult
    const createProductAnswer: ProductBody -> ServiceResult
    const createOrderAnswer: OrderArgs -> ServiceResult
    const productsAnswer: ServiceResult
    var calls: seq<ServiceCall>

    constructor (lookup: string -> ServiceResult, createProduct: ProductBody -> ServiceResult,
                 createOrder: OrderArgs -> ServiceResult, products: ServiceResult)
      ensures lookupAnswer == lookup && createProductAnswer == createProduct
      ensures createOrderAnswer == createOrder && productsAnswer == products
      ensures calls == []
    {
      lookupAnswer, createProductAnswer := lookup, createProduct;
      createOrderAnswer, productsAnswer := createOrder, products;
      calls := [];
    }

    method GetProductById(id: string) returns (r: ServiceResult)
      modifies this`calls
      ensures calls == old(calls) + [GetProductByIdCall(id)]
      ensures r == lookupAnswer(id)
    {
      calls := calls + [GetProductByIdCall(id)];
      r := lookupAnswer(id);
    }

    method CreateProduct(product: ProductBody) returns (r: ServiceResult)
      modifies this`calls
      ensures calls == old(calls) + [CreateProductCall(product)]
      ensures r == createProductAnswer(product)
    {
      calls := calls + [CreateProductCall(product)];
      r := createProductAnswer(product);
    }

    method CreateOrder(items: seq<Entry>, username: JsValue) returns (r: ServiceResult)
      modifies this`calls
      ensures calls == old(calls) + [CreateOrderCall(OrderArgs(items, username))]
      ensures r == createOrderAnswer(OrderArgs(items, username))
    {
      calls := calls + [CreateOrderCall(OrderArgs(items, username))];
      r := createOrderAnswer(OrderArgs(items, username));
    }

    method GetProducts() returns (r: ServiceResult)
      modifies this`calls
      ensures calls == old(calls) + [GetProductsCall]
      ensures r == productsAnswer
    {
      calls := calls + [GetProductsCall];
      r := productsAnswer;
    }
  }

  /** The `for...of` loop of createOrder: walks the line items in array order and stops at
      the first one that fails either check. */
  method ScanLineItems(entries: seq<Entry>) returns (r: Scan)
    ensures r == ScanWith(EntryProblem, entries)
  {
    for i := 0 to |entries|
      invariant forall j | 0 <= j < i :: EntryProblem(entries[j]) == None
    {
      var entry := entries[i];
      if entry.NullEntry? {
        // reading `_id` of null throws
        return FirstProblem(i, NullElement);
      }
      if !Truthy(entry.id) || entry.quantity.Missing? {
        return FirstProblem(i, MissingIdOrQuantity);
      }
      if !AtLeastOne(entry.quantity.number) {
        return FirstProblem(i, QuantityBelowOne);
      }
    }
    return AllValid;
  }

  class ProductController {
    const service: ProductService

    constructor (service: ProductService)
      ensures this.service == service
    {
      this.service := service;
    }

    /** GET /:id */
    method GetProductById(id: string) returns (res: Response)
      modifies service`calls
      ensures service.calls == old(service.calls) + [GetProductByIdCall(id)]
      ensures res == GetProductByIdOutcome(id, service.lookupAnswer)
    {
      var pd := service.GetProductById(id);
      if pd.Threw? {
        return Response(SERVER_ERROR, Message(LookupErrorText));
      }
      if pd.Failure? {
        return Response(NOT_FOUND, Message(pd.message));
      }
      return Response(OK, Json(pd.doc));
    }

    /** POST / */
    method CreateProduct(body: ProductBody) returns (res: Response)
      modifies service`calls
      ensures service.calls == old(service.calls) + ProductServiceCalls(body)
      ensures res == CreateProductOutcome(body, service.createProductAnswer)
    {
      if !Truthy(body.Name()) || !Truthy(body.Price()) {
        return BadRequest(if !Truthy(body.Name()) then NameRequired else PriceRequired);
      }
      var result := service.CreateProduct(body);
      if result.Threw? {
        return Response(SERVER_ERROR, Message(ServerErrorText));
      }
      if result.Failure? {
        return BadRequest(result.message);
      }
      res := Response(CREATED, Json(result.doc));
    }

    /** POST /buy — `user` is `req.user`, `None` when the request carries none. The quantity
        test is the corrected one (EntryProblem); CheckOrderAsWritten is the test as written. */
    method CreateOrder(body: Body, user: Option<JsValue>) returns (res: Response)
      modifies service`calls
      ensures service.calls == old(service.calls) + OrderServiceCalls(EntryProblem, body, user)
      ensures res == CreateOrderOutcome(EntryProblem, body, user, service.createOrderAnswer)
    {
      if body.NotAnArray? || |body.entries| == 0 {
        return BadRequest(InvalidProductsData);
      }
      var scan := ScanLineItems(body.entries);
      if scan.FirstProblem? {
        return ProblemResponse(scan.problem);
      }
      if user.None? {
        // reading `username` of undefined throws
        return Response(SERVER_ERROR, Message(ServerErrorText));
      }
      var username := user.value;
      if !Truthy(username) {
        return BadRequest(InvalidUserData);
      }
      var result := service.CreateOrder(body.entries, username);
      if result.Threw? {
        return Response(SERVER_ERROR, Message(ServerErrorText));
      }
      if result.Failure? {
        return BadRequest(result.message);
      }
      res := Response(CREATED, Json(result.doc));
    }

    /** GET / */
    method GetProducts() returns (res: Response)
      modifies service`calls
      ensures service.calls == old(service.calls) + [GetProductsCall]
      ensures res == GetProductsOutcome(service.productsAnswer)
    {
      var products := service.GetProducts();
      if products.Threw? {
        return Response(SERVER_ERROR, Message(ServerErrorText));
      }
      if products.Failure? {
        return Response(NOT_FOUND, Message(products.message));
      }
      res := Response(OK, Json(products.doc));
    }
  }

  /** Two buy requests against one controller, as a client sees them through the contracts:
      an empty array is refused with 400 before the service is reached, and a single valid
      line item is handed to the service unchanged and answered with its order and 201. */
  method BuyRequestScenarios(order: JsValue)
    returns (refused: Response, callsAfterRefusal: seq<ServiceCall>,
             created: Response, callsAfterCreation: seq<ServiceCall>)
    ensures refused == Response(BAD_REQUEST, Message(InvalidProductsData)) && callsAfterRefusal == []
    ensures created == Response(CREATED, Json(order))
    ensures callsAfterCreation ==
              [CreateOrderCall(OrderArgs([Item(Str("P1"), Given(Finite(2.0)))], Str("testuser")))]
  {
    var service := new ProductService(
      (id: string) => Failure("Product not found"),
      (p: ProductBody) => Failure("not used"),
      (args: OrderArgs) => Success(order),
      Success(Array([])));
    var controller := new ProductController(service);
    var user := Some(Str("testuser"));

    refused := controller.CreateOrder(ArrayBody([]), user);
    callsAfterRefusal := service.calls;

    var items := [Item(Str("P1"), Given(Finite(2.0)))];
    assert EntryProblem(items[0]) == None;
    created := controller.CreateOrder(ArrayBody(items), user);
    callsAfterCreation := service.calls;
  }
}
