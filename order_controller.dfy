/**
 * The JSON API over the engine (app/Http/Controllers/Api/OrderController.php): the ownership
 * check, the mapping of engine failures to HTTP status codes, and the public tracking lookup.
 * A reply is modelled by its status code, its `message` and, for 422 replies, the engine's own
 * message that the source puts under `errors.order`.
 */
module OrderController {
  import opened Wrappers
  import opened Text
  import opened OrderStatus
  import opened UserRole
  import opened Biteship
  import opened OrderModel
  import opened OrderService

  datatype Reply = Reply(code: int, message: string, detail: Option<string>)

  /** Admins reach every order; a user only the orders they own. */
  predicate MayAccess(user: Actor, ownerId: int)
    ensures user.role == Admin ==> MayAccess(user, ownerId)
    ensures user.role == User ==> (MayAccess(user, ownerId) <==> ownerId == user.id)
  {
    IsAdmin(user.role) || ownerId == user.id
  }

  lemma AccessRule(user: Actor, ownerId: int)
    ensures !MayAccess(user, ownerId) <==> user.role == User && ownerId != user.id
  {
  }

  /** `index`'s page size: 15 unless asked, and never above 100. */
  function PerPage(requested: Option<int>): (n: int)
    ensures n <= 100
    ensures requested.None? ==> n == 15
    ensures requested.Some? ==> n == if requested.value <= 100 then requested.value else 100
  {
    var asked := requested.GetOr(15);
    if asked < 100 then asked else 100
  }

  /** `show`: the order is displayed only to someone who may access it. */
  function ShowReply(user: Actor, ownerId: int): (reply: Reply)
    ensures reply.code == 200 <==> MayAccess(user, ownerId)
    ensures reply.code != 200 ==> reply == Reply(403, "You are not authorized to view this order", None)
  {
    if !MayAccess(user, ownerId) then Reply(403, "You are not authorized to view this order", None)
    else Reply(200, "", None)
  }

  // ---------------------------------------------------------------------------------------
  // Failure classification by message text

  /** The cancel handler's test for a refusal; a message shorter than either needle is never one. */
  predicate CancelRefusal(msg: string)
    ensures CancelRefusal(msg) ==> |msg| >= |"current status"|
  {
    Contains(msg, "cannot be cancelled") || Contains(msg, "current status")
  }

  /** The track handler's test for a refusal; a message shorter than every needle is never one. */
  predicate TrackRefusal(msg: string)
    ensures TrackRefusal(msg) ==> |msg| >= |"waybill"|
  {
    Contains(msg, "waybill") || Contains(msg, "tracking") || Contains(msg, "trackable") || Contains(msg, "Insufficient")
  }

  function CancelReply(r: Outcome): (reply: Reply)
    ensures r.Pass? ==> reply == Reply(200, "Order cancelled successfully", None)
    ensures r.Fail? && CancelRefusal(r.error) ==> reply == Reply(422, "Order cannot be cancelled", Some(r.error))
    ensures r.Fail? && !CancelRefusal(r.error) ==> reply == Reply(500, "Failed to cancel order: " + r.error, None)
  {
    match r
    case Pass => Reply(200, "Order cancelled successfully", None)
    case Fail(e) =>
      if CancelRefusal(e) then Reply(422, "Order cannot be cancelled", Some(e))
      else Reply(500, "Failed to cancel order: " + e, None)
  }

  function TrackReply(r: Result<CourierReply>): (reply: Reply)
    ensures r.Success? ==> reply == Reply(200, "", None)
    ensures r.Failure? && TrackRefusal(r.error) ==> reply == Reply(422, "Order tracking not available", Some(r.error))
    ensures r.Failure? && !TrackRefusal(r.error) ==> reply == Reply(500, "Failed to track order: " + r.error, None)
  {
    match r
    case Success(_) => Reply(200, "", None)
    case Failure(e) =>
      if TrackRefusal(e) then Reply(422, "Order tracking not available", Some(e))
      else Reply(500, "Failed to track order: " + e, None)
  }

  lemma CancelGuardMentionsRule(caption: string)
    ensures CancelRefusal("Order " + "cannot be cancelled" + " in current status: " + caption)
  {
    var needle := "cannot be cancelled";
    ContainsItself(needle);
    ContainsWhenSuffix("Order ", needle, needle);
    ContainsWhenPrefix("Order " + needle, " in current status: ", needle);
    ContainsWhenPrefix("Order " + needle + " in current status: ", caption, needle);
  }

  /** Every cancellation the engine refuses on status grounds is answered with 422. */
  lemma CancelGuardIsUnprocessable(st: OrderState)
    requires CancelGuard(st).Some?
    ensures CancelReply(Fail(CancelGuard(st).value)).code == 422
    ensures CancelReply(Fail(CancelGuard(st).value)).detail == CancelGuard(st)
  {
    CancelGuardMentionsRule(OrderStatus.Label(st.status));
  }

  /** Both tracking refusals of the engine are answered with 422. */
  lemma TrackGuardIsUnprocessable(st: OrderState)
    requires TrackGuard(st).Some?
    ensures TrackReply(Failure(TrackGuard(st).value)).code == 422
  {
    if !IsTrackable(st) {
      assert OccursAt("Order is not trackable", "trackable", 13);
    } else {
      assert OccursAt("Insufficient tracking information", "Insufficient", 0);
    }
  }

  /**
   * The classification reads the message text only, so a courier refusal whose own text
   * mentions a status is reported as a business-rule refusal too.
   */
  lemma CourierCancelRefusalByText(body: string)
    requires Contains(body, "current status")
    ensures CancelReply(Fail(CancelOrderFailed + body)).code == 422
  {
    ContainsWhenSuffix(CancelOrderFailed, body, "current status");
  }

  lemma CourierTrackRefusalByText(body: string)
    requires Contains(body, "waybill")
    ensures TrackReply(Failure(TrackFailed + body)).code == 422
  {
    ContainsWhenSuffix(TrackFailed, body, "waybill");
  }

  // ---------------------------------------------------------------------------------------
  // Public tracking input

  /** PHP's `trim` character set. */
  predicate IsPhpSpace(c: char) {
    c == ' ' || c == '\t' || c == '\n' || c == '\r' || c == 0 as char || c == 11 as char
  }

  /** Laravel's `required` on a string input: present and not only whitespace. */
  predicate Filled(v: Option<string>) {
    v.Some? && exists i | 0 <= i < |v.value| :: !IsPhpSpace(v.value[i])
  }

  lemma FilledRule(v: Option<string>)
    ensures v == Some("") ==> !Filled(v)
    ensures v == Some(" \t") ==> !Filled(v)
    ensures v.Some? && |v.value| > 0 && !IsPhpSpace(v.value[0]) ==> Filled(v)
  {
  }

  const PublicTrackingPrefix := "Failed to retrieve tracking information: "

  class OrderController {
    const service: OrderService
    /** The controller's own `BiteshipService`, used by the public lookup. */
    const courier: Gateway

    constructor (service: OrderService, courier: Gateway)
      ensures this.service == service && this.courier == courier
    {
      this.service := service;
      this.courier := courier;
    }

    /** `store`: 201 with the new order, or 500 carrying the engine's message. */
    method Store(user: Actor, req: CreateRequest, date: string, draws: seq<int>, taken: set<string>,
                 appName: string)
      returns (reply: Reply, order: Option<Order>)
      requires IsDateStamp(date)
      requires forall i :: 0 <= i < |draws| ==> ValidDraw(draws[i])
      requires exists i :: 0 <= i < |draws| && OrderNumber(date, draws[i]) !in taken
      modifies service.gateway
      ensures reply.code == 201 <==> order.Some?
      ensures reply.code == 201 ==> reply.message == "Order created successfully"
      ensures reply.code == 201 ==>
                fresh(order.value) && order.value.userId == user.id && order.value.orderNumber !in taken
      ensures reply.code != 201 ==>
                && reply.code == 500 && req.autoCreateCourierOrder
                && |reply.message| >= |"Failed to create order: "|
                && reply.message[..|"Failed to create order: "|] == "Failed to create order: "
      ensures !req.autoCreateCourierOrder ==> reply.code == 201 && service.gateway.log == old(service.gateway.log)
    {
      var r := service.CreateOrder(user, req, date, draws, taken, appName);
      if r.Success? {
        return Reply(201, "Order created successfully", None), Some(r.value);
      }
      return Reply(500, "Failed to create order: " + r.error, None), None;
    }

    /**
     * `createBiteshipOrder`: 403 to strangers, 400 when the order already carries a courier
     * id, 200 once the engine has confirmed it, 500 with the engine's message otherwise.
     */
    method Confirm(user: Actor, o: Order, ownerEmail: string, appName: string) returns (reply: Reply)
      modifies o, service.gateway
      ensures !MayAccess(user, o.userId) ==>
                reply == Reply(403, "You are not authorized to modify this order", None)
                && o.State() == old(o.State()) && service.gateway.log == old(service.gateway.log)
      ensures MayAccess(user, o.userId) && Present(old(o.externalId)) ==>
                reply == Reply(400, "Order has already been confirmed", None)
                && o.State() == old(o.State()) && service.gateway.log == old(service.gateway.log)
      ensures MayAccess(user, o.userId) && !Present(old(o.externalId)) && old(o.status) != Pending ==>
                reply == Reply(500, "Failed to confirm order: " + ConfirmGuard(old(o.State())).value, None)
                && o.State() == old(o.State()) && service.gateway.log == old(service.gateway.log)
      ensures MayAccess(user, o.userId) && !Present(old(o.externalId)) && old(o.status) == Pending ==>
                var before := old(o.State());
                var request := CreateOrderRequest(service.gateway.config.apiUrl,
                  CourierPayloadFor(o.userId, o.orderNumber, o.details, before, ownerEmail, appName));
                var out := ApplyCreateReply(before, Interpret(CreatingOrder, old(service.gateway.Respond(request))));
                && service.gateway.log == old(service.gateway.log) + [request]
                && (out.Success? ==> reply == Reply(200, "Order confirmed and Biteship order created successfully", None)
                                     && o.State() == out.value)
                && (out.Failure? ==> reply == Reply(500, "Failed to confirm order: " + out.error, None)
                                     && o.State() == before)
    {
      if !MayAccess(user, o.userId) {
        return Reply(403, "You are not authorized to modify this order", None);
      }
      if Present(o.externalId) {
        return Reply(400, "Order has already been confirmed", None);
      }
      var r := service.ConfirmOrder(o, ownerEmail, appName);
      if r.Pass? {
        reply := Reply(200, "Order confirmed and Biteship order created successfully", None);
      } else {
        reply := Reply(500, "Failed to confirm order: " + r.error, None);
      }
    }

    /** `updateStatus`: 403 to strangers, 200 after a refresh, 500 with the engine's message. */
    method UpdateStatus(user: Actor, o: Order, now: int) returns (reply: Reply)
      modifies o, service.gateway
      ensures !MayAccess(user, o.userId) ==>
                reply == Reply(403, "You are not authorized to modify this order", None)
                && o.State() == old(o.State()) && service.gateway.log == old(service.gateway.log)
      ensures MayAccess(user, o.userId) && !Present(old(o.externalId)) ==>
                reply == Reply(500, "Failed to update order status: " + "Order does not have Biteship order ID", None)
                && o.State() == old(o.State()) && service.gateway.log == old(service.gateway.log)
      ensures MayAccess(user, o.userId) && Present(old(o.externalId)) ==>
                var request := GetOrderRequest(service.gateway.config.apiUrl, old(o.externalId.value));
                var out := ApplyRefreshReply(old(o.State()),
                                             Interpret(GettingOrder, old(service.gateway.Respond(request))), now);
                && service.gateway.log == old(service.gateway.log) + [request]
                && (out.Success? ==> reply == Reply(200, "Order status updated successfully", None) && o.State() == out.value)
                && (out.Failure? ==> reply == Reply(500, "Failed to update order status: " + out.error, None)
                                     && o.State() == old(o.State()))
    {
      if !MayAccess(user, o.userId) {
        return Reply(403, "You are not authorized to modify this order", None);
      }
      ghost var before := o.State();
      assert before.externalId == o.externalId;
      var r := service.UpdateOrderStatus(o, now);
      if r.Pass? {
        reply := Reply(200, "Order status updated successfully", None);
      } else {
        reply := Reply(500, "Failed to update order status: " + r.error, None);
      }
    }

    /** `cancel`: 403 to strangers; otherwise the engine's outcome as `CancelReply` reports it. */
    method Cancel(user: Actor, o: Order, reason: Option<string>) returns (reply: Reply)
      modifies o, service.gateway
      ensures !MayAccess(user, o.userId) ==>
                reply == Reply(403, "You are not authorized to cancel this order", None)
                && o.State() == old(o.State()) && service.gateway.log == old(service.gateway.log)
      ensures MayAccess(user, o.userId) && CancelGuard(old(o.State())).Some? ==>
                reply.code == 422 && reply == CancelReply(Fail(CancelGuard(old(o.State())).value))
                && o.State() == old(o.State()) && service.gateway.log == old(service.gateway.log)
      ensures MayAccess(user, o.userId) && CancelGuard(old(o.State())).None? && !Present(old(o.externalId)) ==>
                reply == CancelReply(Pass) && o.State() == CancelledState(old(o.State()), reason)
                && service.gateway.log == old(service.gateway.log)
      ensures MayAccess(user, o.userId) && CancelGuard(old(o.State())).None? && Present(old(o.externalId)) ==>
                var request := CancelOrderRequest(service.gateway.config.apiUrl, old(o.externalId.value), CancelReason(reason));
                var answer := Interpret(CancellingOrder, old(service.gateway.Respond(request)));
                && service.gateway.log == old(service.gateway.log) + [request]
                && (answer.Success? ==> reply == CancelReply(Pass) && o.State() == CancelledState(old(o.State()), reason))
                && (answer.Failure? ==> reply == CancelReply(Fail(answer.error)) && o.State() == old(o.State()))
    {
      if !MayAccess(user, o.userId) {
        return Reply(403, "You are not authorized to cancel this order", None);
      }
      if CancelGuard(o.State()).Some? {
        CancelGuardIsUnprocessable(o.State());
      }
      var r := service.CancelOrder(o, reason);
      reply := CancelReply(r);
    }

    /** `track`: 403 to strangers; otherwise the engine's outcome as `TrackReply` reports it. */
    method Track(user: Actor, o: Order, now: int) returns (reply: Reply, tracking: Option<CourierReply>)
      modifies o, service.gateway
      ensures !MayAccess(user, o.userId) ==>
                reply == Reply(403, "You are not authorized to track this order", None) && tracking.None?
                && o.State() == old(o.State()) && service.gateway.log == old(service.gateway.log)
      ensures MayAccess(user, o.userId) && TrackGuard(old(o.State())).Some? ==>
                reply.code == 422 && reply == TrackReply(Failure(TrackGuard(old(o.State())).value))
                && tracking.None?
                && o.State() == old(o.State()) && service.gateway.log == old(service.gateway.log)
      ensures MayAccess(user, o.userId) && TrackGuard(old(o.State())).None? ==>
                var request := TrackRequest(service.gateway.config.apiUrl, old(o.trackingId.value));
                var answer := Interpret(TrackingPackage, old(service.gateway.Respond(request)));
                && service.gateway.log == old(service.gateway.log) + [request]
                && reply == TrackReply(answer)
                && (answer.Success? ==> tracking == Some(answer.value)
                                        && o.State() == ApplyTracking(old(o.State()), answer.value, now))
                && (answer.Failure? ==> tracking.None? && o.State() == old(o.State()))
    {
      if !MayAccess(user, o.userId) {
        return Reply(403, "You are not authorized to track this order", None), None;
      }
      if TrackGuard(o.State()).Some? {
        TrackGuardIsUnprocessable(o.State());
      }
      var r := service.TrackOrder(o, now);
      reply := TrackReply(r);
      tracking := if r.Success? then Some(r.value) else None;
    }

    /** `publicTracking`: a lookup by waybill and courier for anyone; every failure is a 500. */
    method PublicTracking(waybillId: Option<string>, courierCode: Option<string>)
      returns (reply: Reply, tracking: Option<CourierReply>)
      modifies courier
      ensures !Filled(waybillId) || !Filled(courierCode) ==>
                reply.code == 500 && tracking.None? && courier.log == old(courier.log)
                && |reply.message| >= |PublicTrackingPrefix|
                && reply.message[..|PublicTrackingPrefix|] == PublicTrackingPrefix
      ensures Filled(waybillId) && Filled(courierCode) ==>
                var request := PublicTrackingRequest(courier.config.apiUrl, waybillId.value, courierCode.value);
                var answer := Interpret(PublicLookup, old(courier.Respond(request)));
                && courier.log == old(courier.log) + [request]
                && (answer.Success? ==> reply == Reply(200, "", None) && tracking == Some(answer.value))
                && (answer.Failure? ==> reply == Reply(500, PublicTrackingPrefix + answer.error, None) && tracking.None?)
    {
      if !Filled(waybillId) || !Filled(courierCode) {
        // Laravel's summary of the failed `required` rules, which the handler reports.
        var first := if !Filled(waybillId) then "The waybill id field is required." else "The courier code field is required.";
        var more := if !Filled(waybillId) && !Filled(courierCode) then " (and 1 more error)" else "";
        return Reply(500, PublicTrackingPrefix + first + more, None), None;
      }
      var r := courier.GetPublicTracking(waybillId.value, courierCode.value);
      if r.Success? {
        reply, tracking := Reply(200, "", None), Some(r.value);
      } else {
        reply, tracking := Reply(500, PublicTrackingPrefix + r.error, None), None;
      }
    }
  }
}
