/**
 * The courier-aggregator client (app/Services/BiteshipService.php). The HTTP transport is an
 * oracle: the gateway is given a function from (number of requests already sent, request) to
 * response, and records every request it sends, so a caller's contract can say whether, and
 * with what, the courier was called.
 */
module Biteship {
  import opened Wrappers
  import opened Text

  datatype HttpMethod = Get | Post

  /** The single item of a shipment: name, weight in grams, dimensions in cm, declared value. */
  datatype Item = Item(name: string, weight: int, length: int, width: int, height: int, value: int)

  /** A latitude/longitude pair, kept as opaque fixed-point numbers. */
  datatype Coordinate = Coordinate(latitude: int, longitude: int)

  /** The body of `POST /orders`, field for field as the order service builds it. */
  datatype CourierPayload = CourierPayload(
    shipperContactName: string,
    shipperContactPhone: string,
    shipperContactEmail: string,
    shipperOrganization: string,
    originContactName: string,
    originContactPhone: string,
    originAddress: string,
    originPostalCode: string,
    destinationContactName: string,
    destinationContactPhone: string,
    destinationContactEmail: Option<string>,
    destinationAddress: string,
    destinationPostalCode: string,
    courierCompany: string,
    courierType: string,
    courierInsurance: int,
    deliveryType: string,
    orderNote: Option<string>,
    metadataOrderNumber: string,
    metadataUserId: int,
    items: seq<Item>,
    originCoordinate: Option<Coordinate>,
    destinationCoordinate: Option<Coordinate>)

  datatype RequestBody =
    | NoBody
    | OrderBody(payload: CourierPayload)
      /** `['cancellation_reason' => $reason]`, or `[]` when there is no reason. */
    | CancelBody(cancellationReason: Option<string>)

  datatype HttpRequest = HttpRequest(verb: HttpMethod, url: string, body: RequestBody)

  /**
   * The decoded JSON body of a courier reply: the keys the order service reads
   * (`id`, `status`, `price`, `courier.insurance.fee`, `courier.waybill_id`,
   * `courier.tracking_id`) and the rest of the document, kept opaque.
   */
  datatype CourierReply = CourierReply(
    id: Option<string>,
    status: Option<string>,
    price: Option<int>,
    insuranceFee: Option<int>,
    waybillId: Option<string>,
    trackingId: Option<string>,
    rest: string)

  /**
   * `$response->json()`: a decoded JSON object or array, or the PHP type of whatever else
   * the body decodes to ("null" for a body that is not JSON at all).
   */
  datatype JsonBody = Document(reply: CourierReply) | NotArray(phpType: string)

  /** What the transport gives back: an HTTP response, or a thrown connection error. */
  datatype HttpResponse =
    | Response(status: int, body: string, json: JsonBody)
    | ConnectionFailed(message: string)

  /** Laravel's `Response::successful()`: a 2xx status. */
  predicate Successful(resp: HttpResponse) {
    resp.Response? && 200 <= resp.status < 300
  }

  /** The five public operations (and `updateOrder`), which differ only in path and failure prefix. */
  datatype Operation = CreatingOrder | GettingOrder | UpdatingOrder | CancellingOrder | TrackingPackage | PublicLookup

  const CreateOrderFailed := "Failed to create order: "
  const GetOrderFailed := "Failed to get order details: "
  const UpdateOrderFailed := "Failed to update order: "
  const CancelOrderFailed := "Failed to cancel order: "
  const TrackFailed := "Failed to track package: "
  const PublicTrackingFailed := "Failed to get public tracking: "

  function FailurePrefix(op: Operation): string {
    match op
    case CreatingOrder => CreateOrderFailed
    case GettingOrder => GetOrderFailed
    case UpdatingOrder => UpdateOrderFailed
    case CancellingOrder => CancelOrderFailed
    case TrackingPackage => TrackFailed
    case PublicLookup => PublicTrackingFailed
  }

  function MethodName(op: Operation): string {
    match op
    case CreatingOrder => "createOrder"
    case GettingOrder => "getOrder"
    case UpdatingOrder => "updateOrder"
    case CancellingOrder => "cancelOrder"
    case TrackingPackage => "trackByOrderId"
    case PublicLookup => "getPublicTracking"
  }

  /**
   * The `TypeError` raised when a successful body is not a JSON object or array: the
   * operations are declared to return `array`.
   */
  function ReturnTypeError(op: Operation, phpType: string): string {
    "App\\Services\\BiteshipService::" + MethodName(op) + "(): Return value must be of type array, "
      + phpType + " returned"
  }

  /**
   * The contract every operation shares: the decoded body on success; otherwise an exception
   * whose message is the operation's prefix followed by the raw body. A connection error
   * propagates with its own message, and a successful body that is not a JSON document
   * fails the declared `array` return type.
   */
  function Interpret(op: Operation, resp: HttpResponse): (r: Result<CourierReply>)
    ensures r.Success? <==> Successful(resp) && resp.json.Document?
    ensures r.Success? ==> r.value == resp.json.reply
    ensures Successful(resp) && resp.json.NotArray? ==> r == Failure(ReturnTypeError(op, resp.json.phpType))
    ensures resp.Response? && !Successful(resp) ==> r == Failure(FailurePrefix(op) + resp.body)
    ensures resp.ConnectionFailed? ==> r == Failure(resp.message)
  {
    match resp
    case ConnectionFailed(m) => Failure(m)
    case Response(status, body, json) =>
      if 200 <= status < 300 then
        match json
        case Document(reply) => Success(reply)
        case NotArray(t) => Failure(ReturnTypeError(op, t))
      else Failure(FailurePrefix(op) + body)
  }

  // Endpoint paths, appended to the configured base URL.

  function OrdersPath(): string {
    "/orders"
  }

  function OrderPath(orderId: string): (p: string)
    ensures p == OrdersPath() + "/" + orderId
  {
    "/orders/" + orderId
  }

  function CancelPath(orderId: string): (p: string)
    ensures p == OrderPath(orderId) + "/cancel"
  {
    "/orders/" + orderId + "/cancel"
  }

  function TrackingPath(trackingId: string): string {
    "/trackings/" + trackingId
  }

  function PublicTrackingPath(waybillId: string, courierCode: string): (p: string)
    ensures p == TrackingPath(waybillId) + "/couriers/" + courierCode
  {
    "/trackings/" + waybillId + "/couriers/" + courierCode
  }

  /** The id can be read back from an order or tracking path, so distinct ids never share a URL. */
  lemma PathsDetermineIds(a: string, b: string)
    ensures OrderPath(a) == OrderPath(b) ==> a == b
    ensures TrackingPath(a) == TrackingPath(b) ==> a == b
    ensures OrderPath(a) != TrackingPath(b)
    ensures OrderPath(a)[8..] == a && TrackingPath(a)[11..] == a
  {
    assert OrderPath(a)[8..] == a;
    assert OrderPath(b)[8..] == b;
    assert TrackingPath(a)[11..] == a;
    assert TrackingPath(b)[11..] == b;
    assert OrderPath(a)[1] == 'o' && TrackingPath(b)[1] == 't';
  }

  function CreateOrderRequest(apiUrl: string, data: CourierPayload): HttpRequest {
    HttpRequest(Post, apiUrl + OrdersPath(), OrderBody(data))
  }

  function GetOrderRequest(apiUrl: string, orderId: string): HttpRequest {
    HttpRequest(Get, apiUrl + OrderPath(orderId), NoBody)
  }

  function UpdateOrderRequest(apiUrl: string, orderId: string, data: CourierPayload): HttpRequest {
    HttpRequest(Post, apiUrl + OrderPath(orderId), OrderBody(data))
  }

  function CancelOrderRequest(apiUrl: string, orderId: string, reason: Option<string>): HttpRequest {
    HttpRequest(Post, apiUrl + CancelPath(orderId), CancelBody(reason))
  }

  function TrackRequest(apiUrl: string, trackingId: string): HttpRequest {
    HttpRequest(Get, apiUrl + TrackingPath(trackingId), NoBody)
  }

  function PublicTrackingRequest(apiUrl: string, waybillId: string, courierCode: string): HttpRequest {
    HttpRequest(Get, apiUrl + PublicTrackingPath(waybillId, courierCode), NoBody)
  }

  /** The settings the constructor reads from configuration. */
  datatype GatewayConfig = GatewayConfig(apiKey: string, apiUrl: string, timeout: int)

  /** The `TypeError` PHP raises when the typed `$apiKey` property is given `null`. */
  const NullKeyError := "Cannot assign null to property App\\Services\\BiteshipService::$apiKey of type string"

  /**
   * The constructor's check. A key that is not configured at all cannot even be stored in the
   * typed property; one that is `empty()` ("" or "0") is refused with the source's own message.
   * The timeout falls back to 30 seconds when it is not configured.
   */
  function Configure(apiKey: Option<string>, apiUrl: string, timeout: Option<int>): (r: Result<GatewayConfig>)
    ensures r.Failure? <==> !Present(apiKey)
    ensures apiKey.None? ==> r == Failure(NullKeyError)
    ensures apiKey.Some? && !Truthy(apiKey.value) ==> r == Failure("Biteship API key is not configured")
    ensures r.Success? ==> r.value.apiKey == apiKey.value && r.value.apiUrl == apiUrl
    ensures r.Success? ==> r.value.timeout == (if timeout.Some? then timeout.value else 30)
  {
    match apiKey
    case None => Failure(NullKeyError)
    case Some(key) =>
      if Truthy(key) then Success(GatewayConfig(key, apiUrl, timeout.GetOr(30)))
      else Failure("Biteship API key is not configured")
  }

  class Gateway {
    const config: GatewayConfig
    /** The remote side: the reply to the n-th request the gateway sends. */
    const transport: (nat, HttpRequest) -> HttpResponse
    /** Every request sent so far, in order. */
    var log: seq<HttpRequest>

    constructor (config: GatewayConfig, transport: (nat, HttpRequest) -> HttpResponse)
      requires Truthy(config.apiKey)
      ensures this.config == config && this.transport == transport && log == []
    {
      this.config := config;
      this.transport := transport;
      log := [];
    }

    /** Construction from raw configuration, failing as the constructor does without a key. */
    static method Connect(apiKey: Option<string>, apiUrl: string, timeout: Option<int>,
                          transport: (nat, HttpRequest) -> HttpResponse)
      returns (r: Result<Gateway>)
      ensures r.Failure? <==> Configure(apiKey, apiUrl, timeout).Failure?
      ensures r.Failure? ==> r.error == Configure(apiKey, apiUrl, timeout).error
      ensures r.Success? ==> Configure(apiKey, apiUrl, timeout).Success?
      ensures r.Success? ==> fresh(r.value) && r.value.config == Configure(apiKey, apiUrl, timeout).value
      ensures r.Success? ==> r.value.transport == transport && r.value.log == []
    {
      var c := Configure(apiKey, apiUrl, timeout);
      if c.Failure? {
        return Failure(c.error);
      }
      var g := new Gateway(c.value, transport);
      return Success(g);
    }

    /** The reply the next request would get. */
    function Respond(req: HttpRequest): HttpResponse
      reads this
    {
      transport(|log|, req)
    }

    /** `makeRequest`: one request, recorded, with no retries. */
    method Send(req: HttpRequest) returns (resp: HttpResponse)
      modifies this`log
      ensures log == old(log) + [req]
      ensures resp == old(Respond(req))
    {
      resp := transport(|log|, req);
      log := log + [req];
    }

    method CreateOrder(data: CourierPayload) returns (r: Result<CourierReply>)
      modifies this`log
      ensures log == old(log) + [CreateOrderRequest(config.apiUrl, data)]
      ensures r == Interpret(CreatingOrder, old(Respond(CreateOrderRequest(config.apiUrl, data))))
    {
      var resp := Send(CreateOrderRequest(config.apiUrl, data));
      r := Interpret(CreatingOrder, resp);
    }

    method GetOrder(orderId: string) returns (r: Result<CourierReply>)
      modifies this`log
      ensures log == old(log) + [GetOrderRequest(config.apiUrl, orderId)]
      ensures r == Interpret(GettingOrder, old(Respond(GetOrderRequest(config.apiUrl, orderId))))
    {
      var resp := Send(GetOrderRequest(config.apiUrl, orderId));
      r := Interpret(GettingOrder, resp);
    }

    method UpdateOrder(orderId: string, data: CourierPayload) returns (r: Result<CourierReply>)
      modifies this`log
      ensures log == old(log) + [UpdateOrderRequest(config.apiUrl, orderId, data)]
      ensures r == Interpret(UpdatingOrder, old(Respond(UpdateOrderRequest(config.apiUrl, orderId, data))))
    {
      var resp := Send(UpdateOrderRequest(config.apiUrl, orderId, data));
      r := Interpret(UpdatingOrder, resp);
    }

    method CancelOrder(orderId: string, reason: Option<string>) returns (r: Result<CourierReply>)
      modifies this`log
      ensures log == old(log) + [CancelOrderRequest(config.apiUrl, orderId, reason)]
      ensures r == Interpret(CancellingOrder, old(Respond(CancelOrderRequest(config.apiUrl, orderId, reason))))
    {
      var resp := Send(CancelOrderRequest(config.apiUrl, orderId, reason));
      r := Interpret(CancellingOrder, resp);
    }

    method TrackByOrderId(trackingId: string) returns (r: Result<CourierReply>)
      modifies this`log
      ensures log == old(log) + [TrackRequest(config.apiUrl, trackingId)]
      ensures r == Interpret(TrackingPackage, old(Respond(TrackRequest(config.apiUrl, trackingId))))
    {
      var resp := Send(TrackRequest(config.apiUrl, trackingId));
      r := Interpret(TrackingPackage, resp);
    }

    method GetPublicTracking(waybillId: string, courierCode: string) returns (r: Result<CourierReply>)
      modifies this`log
      ensures log == old(log) + [PublicTrackingRequest(config.apiUrl, waybillId, courierCode)]
      ensures r == Interpret(PublicLookup,
                             old(Respond(PublicTrackingRequest(config.apiUrl, waybillId, courierCode))))
    {
      var resp := Send(PublicTrackingRequest(config.apiUrl, waybillId, courierCode));
      r := Interpret(PublicLookup, resp);
    }
  }

  /** A JSON scalar as it can appear in `error.code`. */
  datatype JsonScalar = JString(s: string) | JNumber(n: int)

  /** The `error` object of an error reply: its `code` and `message`, each possibly absent. */
  datatype ApiError = ApiError(code: Option<JsonScalar>, message: Option<string>)

  /** The documented error codes and their fixed messages. */
  const KnownErrors: map<string, string> := map[
    "40000001" := "Authentication failed. Please check your API key.",
    "40101001" := "Authorization failed. Insufficient permissions.",
    "40101002" := "No account found with associated key.",
    "40101003" := "Cannot process authorization.",
    "40301001" := "No match token for this key.",
    "40301002" := "User information not found."
  ]

  /**
   * `handleApiError`. PHP's `match` compares with `===`, so only a code sent as a JSON string
   * hits one of the six arms; a numeric code, like a missing one, falls to the default.
   */
  function HandleApiError(statusCode: int, error: ApiError): (msg: string)
    ensures error.code.Some? && error.code.value.JString? && error.code.value.s in KnownErrors ==>
              msg == KnownErrors[error.code.value.s]
    ensures !(error.code.Some? && error.code.value.JString? && error.code.value.s in KnownErrors) ==>
              msg == "API Error (" + IntToString(statusCode) + "): " + error.message.GetOr("Unknown error")
  {
    var fallback := "API Error (" + IntToString(statusCode) + "): " + error.message.GetOr("Unknown error");
    match error.code
    case Some(JString(c)) =>
      if c == "40000001" then "Authentication failed. Please check your API key."
      else if c == "40101001" then "Authorization failed. Insufficient permissions."
      else if c == "40101002" then "No account found with associated key."
      else if c == "40101003" then "Cannot process authorization."
      else if c == "40301001" then "No match token for this key."
      else if c == "40301002" then "User information not found."
      else fallback
    case _ => fallback
  }

  /** A numeric code never matches, even when its digits are those of a documented code. */
  lemma NumericCodeIsUnknown(statusCode: int, n: int, message: Option<string>)
    ensures HandleApiError(statusCode, ApiError(Some(JNumber(n)), message))
            == "API Error (" + IntToString(statusCode) + "): " + message.GetOr("Unknown error")
  {
  }
}
