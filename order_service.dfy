/**
 * The order lifecycle engine (app/Services/OrderService.php). Each operation is split into a
 * pure part (the guard that may reject the order, and the merge of the courier's reply into the
 * order's columns) and a method on `OrderService` that performs the call to the gateway and
 * writes the order. A failing operation leaves the order as it was: the source either throws
 * before its single `update`, or rolls the transaction back.
 */
module OrderService {
  import opened Wrappers
  import opened Text
  import opened OrderStatus
  import UserRole
  import opened OrderModel
  import opened Biteship

  // ---------------------------------------------------------------------------------------
  // Status reconciliation (`mapBiteshipStatus`)

  /** `mapBiteshipStatus`: the courier's status string as an order state, `pending` for any other. */
  function MapCourierStatus(v: string): (s: Status)
    ensures s != Pending ==> Value(s) == v
    ensures TryFrom(v).Some? ==> s == TryFrom(v).value
  {
    if v == "confirmed" then Confirmed
    else if v == "scheduled" then Scheduled
    else if v == "allocated" then Allocated
    else if v == "picking_up" then PickingUp
    else if v == "picked" then Picked
    else if v == "cancelled" then Cancelled
    else if v == "on_hold" then OnHold
    else if v == "dropping_off" then DroppingOff
    else if v == "return_in_transit" then ReturnInTransit
    else if v == "returned" then Returned
    else if v == "rejected" then Rejected
    else if v == "disposed" then Disposed
    else if v == "courier_not_found" then CourierNotFound
    else if v == "delivered" then Delivered
    else Pending
  }

  /** Every state but `pending` is reported under its own backing string. */
  lemma MapCourierStatusKnown(s: Status)
    requires s != Pending
    ensures MapCourierStatus(Value(s)) == s
  {
  }

  /** A string the map does not send to `pending` is the backing string of its result. */
  lemma MapCourierStatusNamed(v: string)
    ensures MapCourierStatus(v) != Pending ==> Value(MapCourierStatus(v)) == v
  {
  }

  /** So a string that names no state other than `pending` gives `pending`. */
  lemma MapCourierStatusUnknown(v: string)
    requires forall s: Status :: s != Pending ==> v != Value(s)
    ensures MapCourierStatus(v) == Pending
  {
    MapCourierStatusNamed(v);
  }

  /**
   * The map is the enum's own parse with `pending` as the fallback: a string that names no
   * state, and "pending" itself, both give `pending`.
   */
  lemma MapCourierStatusFallback(v: string)
    ensures MapCourierStatus(v) == TryFrom(v).GetOr(Pending)
  {
    MapCourierStatusNamed(v);
    match TryFrom(v)
    case Some(s) =>
      if s != Pending {
        MapCourierStatusKnown(s);
      }
    case None =>
      if MapCourierStatus(v) != Pending {
        TryFromValue(MapCourierStatus(v));
      }
  }

  // ---------------------------------------------------------------------------------------
  // Creation

  /** The validated request fields `createOrder` reads. */
  datatype CreateRequest = CreateRequest(
    details: OrderDetails,
    packageType: Option<string>,
    insuranceCost: Option<int>,
    notes: Option<string>,
    autoCreateCourierOrder: bool)

  /** The lifecycle columns of a freshly created order. */
  function CreatedState(insuranceCost: Option<int>, notes: Option<string>): (st: OrderState)
    ensures st.status == Pending && CanBeCancelled(st.status) && !IsTrackable(st)
    ensures st.externalId.None? && st.courierResponse.None? && st.deliveredAt.None?
  {
    OrderState(Pending, None, None, None, 0, insuranceCost.GetOr(0), 0, notes, None, None)
  }

  /**
   * A new order is pending, costs nothing to ship, and has no courier linkage, so it can be
   * confirmed and cancelled but neither refreshed nor tracked. Its total is 0 even when an
   * insurance cost was supplied, so total = shipping + insurance fails for it.
   */
  lemma CreatedOrderShape(insuranceCost: Option<int>, notes: Option<string>)
    ensures var st := CreatedState(insuranceCost, notes);
      && st.status == Pending && st.shippingCost == 0 && st.totalCost == 0
      && st.insuranceCost == insuranceCost.GetOr(0) && st.notes == notes
      && st.externalId.None? && st.waybillId.None? && st.trackingId.None?
      && ConfirmGuard(st).None? && CancelGuard(st).None?
      && RefreshGuard(st).Some? && TrackGuard(st) == Some("Order is not trackable")
      && (st.totalCost == st.shippingCost + st.insuranceCost <==> insuranceCost.GetOr(0) == 0)
  {
  }

  // ---------------------------------------------------------------------------------------
  // The courier submission (`createBiteshipOrder`, lines building `$biteshipData`)

  /** `?:` on an integer column: null and 0 fall back to the default. */
  function OrElse(v: Option<int>, default: int): int {
    if v.Some? && v.value != 0 then v.value else default
  }

  function CourierPayloadFor(userId: int, orderNumber: string, d: OrderDetails, st: OrderState,
                             ownerEmail: string, appName: string): (p: CourierPayload)
    ensures |p.items| == 1
    ensures p.items[0].name == (if Present(d.packageDescription) then d.packageDescription.value else "Package")
    ensures p.items[0].weight == d.packageWeight
    ensures p.items[0].length == (if d.packageLength.Some? && d.packageLength.value != 0 then d.packageLength.value else 10)
    ensures p.items[0].width == (if d.packageWidth.Some? && d.packageWidth.value != 0 then d.packageWidth.value else 10)
    ensures p.items[0].height == (if d.packageHeight.Some? && d.packageHeight.value != 0 then d.packageHeight.value else 10)
    ensures p.items[0].value == d.packageValue.GetOr(0)
    ensures p.originCoordinate.Some? <==> d.senderLatitude.Some? && d.senderLongitude.Some?
    ensures p.originCoordinate.Some? ==>
              p.originCoordinate.value == Coordinate(d.senderLatitude.value, d.senderLongitude.value)
    ensures p.destinationCoordinate.Some? <==> d.receiverLatitude.Some? && d.receiverLongitude.Some?
    ensures p.destinationCoordinate.Some? ==>
              p.destinationCoordinate.value == Coordinate(d.receiverLatitude.value, d.receiverLongitude.value)
    ensures p.courierInsurance == st.insuranceCost && p.orderNote == st.notes
    ensures p.shipperContactEmail == ownerEmail && p.shipperOrganization == appName
    ensures p.metadataOrderNumber == orderNumber && p.metadataUserId == userId
    ensures p.courierCompany == d.courierCode && p.courierType == d.courierService
    ensures p.deliveryType == "now" && p.destinationContactEmail.None?
  {
    var item := Item(
      if Present(d.packageDescription) then d.packageDescription.value else "Package",
      d.packageWeight,
      OrElse(d.packageLength, 10),
      OrElse(d.packageWidth, 10),
      OrElse(d.packageHeight, 10),
      d.packageValue.GetOr(0));
    var base := CourierPayload(
      d.senderName, d.senderPhone, ownerEmail, appName,
      d.senderName, d.senderPhone, d.senderAddress, d.senderPostalCode,
      d.receiverName, d.receiverPhone, None, d.receiverAddress, d.receiverPostalCode,
      d.courierCode, d.courierService, st.insuranceCost, "now", st.notes,
      orderNumber, userId, [item], None, None);
    // The decimal casts turn a stored coordinate into a non-empty string, so presence is enough.
    var withOrigin :=
      if d.senderLatitude.Some? && d.senderLongitude.Some?
      then base.(originCoordinate := Some(Coordinate(d.senderLatitude.value, d.senderLongitude.value)))
      else base;
    if d.receiverLatitude.Some? && d.receiverLongitude.Some?
    then withOrigin.(destinationCoordinate := Some(Coordinate(d.receiverLatitude.value, d.receiverLongitude.value)))
    else withOrigin
  }

  // ---------------------------------------------------------------------------------------
  // Confirmation

  /** `confirmOrder`'s two checks, made before the courier is called. */
  function ConfirmGuard(st: OrderState): (e: Option<string>)
    ensures e.None? <==> st.status == Pending && !Present(st.externalId)
  {
    if st.status != Pending then Some("Order cannot be confirmed in current status: " + Label(st.status))
    else if Present(st.externalId) then Some("Order has already been confirmed with Biteship")
    else None
  }

  /**
   * The `update` after `POST /orders`. Reading `$response['id']` or `$response['status']`
   * when the key is missing throws, so such a reply fails the operation.
   */
  function ApplyCreateReply(st: OrderState, answer: Result<CourierReply>): (r: Result<OrderState>)
    ensures answer.Failure? ==> r == Failure(answer.error)
    ensures r.Success? <==> answer.Success? && answer.value.id.Some? && answer.value.status.Some?
    ensures r.Success? ==> var reply, next := answer.value, r.value;
      && next.externalId == reply.id
      && next.status == MapCourierStatus(reply.status.value)
      && next.waybillId == reply.waybillId && next.trackingId == reply.trackingId
      && next.shippingCost == reply.price.GetOr(0)
      && next.insuranceCost == reply.insuranceFee.GetOr(0)
      && next.totalCost == next.shippingCost + next.insuranceCost
      && next.courierResponse == Some(reply)
      && next.notes == st.notes && next.deliveredAt == st.deliveredAt
  {
    match answer
    case Failure(e) => Failure(e)
    case Success(reply) =>
      if reply.id.None? then Failure("Undefined array key \"id\"")
      else if reply.status.None? then Failure("Undefined array key \"status\"")
      else
        var shipping := reply.price.GetOr(0);
        var insurance := reply.insuranceFee.GetOr(0);
        Success(st.(
          externalId := reply.id,
          status := MapCourierStatus(reply.status.value),
          waybillId := reply.waybillId,
          trackingId := reply.trackingId,
          shippingCost := shipping,
          insuranceCost := insurance,
          totalCost := shipping + insurance,
          courierResponse := Some(reply)))
  }

  /**
   * A second confirmation is refused exactly when the first one left the order out of
   * `pending` or stored an id PHP treats as true; so a courier id other than "" and "0"
   * always blocks it.
   */
  lemma ConfirmTwiceRefused(st: OrderState, reply: CourierReply)
    requires ConfirmGuard(st).None?
    requires ApplyCreateReply(st, Success(reply)).Success?
    ensures var next := ApplyCreateReply(st, Success(reply)).value;
      ConfirmGuard(next).Some? <==> MapCourierStatus(reply.status.value) != Pending || Truthy(reply.id.value)
    ensures Truthy(reply.id.value) ==> ConfirmGuard(ApplyCreateReply(st, Success(reply)).value).Some?
  {
  }

  /** The confirmation scenario: 15000 shipping and a 500 insurance fee make a 15500 total. */
  lemma ConfirmScenario(st: OrderState, id: string, rest: string)
    ensures var reply := CourierReply(Some(id), Some("confirmed"), Some(15000), Some(500), None, None, rest);
      var r := ApplyCreateReply(st, Success(reply));
      && r.Success? && r.value.status == Confirmed
      && r.value.shippingCost == 15000 && r.value.insuranceCost == 500 && r.value.totalCost == 15500
  {
  }

  // ---------------------------------------------------------------------------------------
  // Refresh (`updateOrderStatus`)

  function RefreshGuard(st: OrderState): (e: Option<string>)
    ensures e.None? <==> Present(st.externalId)
  {
    if !Present(st.externalId) then Some("Order does not have Biteship order ID") else None
  }

  /** The `update` after `GET /orders/{id}`: absent reply fields keep the stored values. */
  function ApplyRefreshReply(st: OrderState, answer: Result<CourierReply>, now: int): (r: Result<OrderState>)
    ensures answer.Failure? ==> r == Failure(answer.error)
    ensures r.Success? <==> answer.Success? && answer.value.status.Some?
    ensures r.Success? ==> var reply, next := answer.value, r.value;
      && next.status == MapCourierStatus(reply.status.value)
      && next.waybillId == (if reply.waybillId.Some? then reply.waybillId else st.waybillId)
      && next.trackingId == (if reply.trackingId.Some? then reply.trackingId else st.trackingId)
      && next.shippingCost == (if reply.price.Some? then reply.price.value else st.shippingCost)
      && next.insuranceCost == (if reply.insuranceFee.Some? then reply.insuranceFee.value else st.insuranceCost)
      && next.totalCost == next.shippingCost + next.insuranceCost
      && next.deliveredAt == (if reply.status.value == "delivered" then Some(now) else st.deliveredAt)
      && next.externalId == st.externalId && next.notes == st.notes
      && next.courierResponse == Some(reply)
  {
    match answer
    case Failure(e) => Failure(e)
    case Success(reply) =>
      if reply.status.None? then Failure("Undefined array key \"status\"")
      else
        var shipping := if reply.price.Some? then reply.price.value else st.shippingCost;
        var insurance := if reply.insuranceFee.Some? then reply.insuranceFee.value else st.insuranceCost;
        Success(st.(
          status := MapCourierStatus(reply.status.value),
          waybillId := if reply.waybillId.Some? then reply.waybillId else st.waybillId,
          trackingId := if reply.trackingId.Some? then reply.trackingId else st.trackingId,
          shippingCost := shipping,
          insuranceCost := insurance,
          totalCost := shipping + insurance,
          courierResponse := Some(reply),
          deliveredAt := if reply.status.value == "delivered" then Some(now) else st.deliveredAt))
  }

  /**
   * Refreshing twice against the same remote state changes nothing the second time, except
   * that a `delivered` reply stamps `delivered_at` again with the later time.
   */
  lemma RefreshTwice(st: OrderState, reply: CourierReply, t1: int, t2: int)
    requires reply.status.Some?
    ensures var once := ApplyRefreshReply(st, Success(reply), t1).value;
      var twice := ApplyRefreshReply(once, Success(reply), t2).value;
      && (reply.status.value != "delivered" ==> twice == once)
      && (reply.status.value == "delivered" ==> twice == once.(deliveredAt := Some(t2)))
  {
  }

  /** So the first delivery time does not survive a later refresh: `delivered_at` is not set only once. */
  lemma RefreshRestampsDelivery(st: OrderState, reply: CourierReply, t1: int, t2: int)
    requires reply.status == Some("delivered") && t1 != t2
    ensures var once := ApplyRefreshReply(st, Success(reply), t1).value;
      var twice := ApplyRefreshReply(once, Success(reply), t2).value;
      once.deliveredAt == Some(t1) && twice.deliveredAt == Some(t2) && twice.deliveredAt != once.deliveredAt
  {
    RefreshTwice(st, reply, t1, t2);
  }

  // ---------------------------------------------------------------------------------------
  // Cancellation

  function CancelGuard(st: OrderState): (e: Option<string>)
    ensures e.None? <==> CanBeCancelled(st.status)
  {
    if !CanBeCancelled(st.status) then Some("Order " + "cannot be cancelled" + " in current status: " + Label(st.status))
    else None
  }

  /** `$reason ?: 'No reason provided'`. */
  function ReasonText(reason: Option<string>): string {
    if Present(reason) then reason.value else "No reason provided"
  }

  /** The cancel request forwards the reason only when PHP treats it as true. */
  function CancelReason(reason: Option<string>): (r: Option<string>)
    ensures r.Some? <==> Present(reason)
    ensures r.Some? ==> r == reason
  {
    if Present(reason) then reason else None
  }

  /** The `update` of a cancellation. */
  function CancelledState(st: OrderState, reason: Option<string>): (next: OrderState)
    ensures next == st.(status := Cancelled, notes := next.notes) && next.notes.Some?
    ensures IsCancelled(next.status) && !CanBeCancelled(next.status) && !IsTrackable(next)
  {
    st.(
      status := Cancelled,
      notes := Some(
        if Present(st.notes) then st.notes.value + "\n\nCancelled: " + ReasonText(reason)
        else "Cancelled: " + ReasonText(reason)))
  }

  /**
   * Cancelling touches only the status and the notes; earlier notes are kept in front, and the
   * notes end with the cancellation line. The order is then neither cancellable nor trackable.
   */
  lemma CancelledStateShape(st: OrderState, reason: Option<string>)
    ensures var next := CancelledState(st, reason);
      var line := "Cancelled: " + ReasonText(reason);
      && next == st.(status := Cancelled, notes := next.notes)
      && next.notes.Some?
      && |next.notes.value| >= |line|
      && next.notes.value[|next.notes.value| - |line|..] == line
      && (Present(st.notes) ==> next.notes.value[..|st.notes.value|] == st.notes.value)
      && (Present(st.notes) ==> next.notes.value == st.notes.value + "\n\n" + line)
      && (!Present(st.notes) ==> next.notes.value == line)
      && CancelGuard(next).Some? && !IsTrackable(next)
  {
    var next := CancelledState(st, reason);
    var line := "Cancelled: " + ReasonText(reason);
    if Present(st.notes) {
      assert next.notes.value == (st.notes.value + "\n\n") + line;
    }
  }

  // ---------------------------------------------------------------------------------------
  // Tracking

  function TrackGuard(st: OrderState): (e: Option<string>)
    ensures e.None? <==> IsTrackable(st) && Present(st.trackingId)
  {
    if !IsTrackable(st) then Some("Order is not trackable")
    else if !Present(st.trackingId) then Some("Insufficient tracking information")
    else None
  }

  /** The `update` after tracking: only when the reply has a status that maps to a different state. */
  function ApplyTracking(st: OrderState, data: CourierReply, now: int): (next: OrderState)
    ensures next == st.(status := next.status, deliveredAt := next.deliveredAt)
    ensures next.status == (if data.status.Some? then MapCourierStatus(data.status.value) else st.status)
    ensures next.deliveredAt != st.deliveredAt ==>
              data.status == Some("delivered") && st.status != Delivered && next.deliveredAt == Some(now)
    ensures data.status == Some("delivered") && st.status != Delivered ==> next.deliveredAt == Some(now)
    ensures data.status.None? || MapCourierStatus(data.status.value) == st.status ==> next == st
  {
    if data.status.Some? && st.status != MapCourierStatus(data.status.value) then
      st.(
        status := MapCourierStatus(data.status.value),
        deliveredAt := if data.status.value == "delivered" then Some(now) else st.deliveredAt)
    else st
  }

  /** Unlike refresh, tracking twice against the same reply is idempotent. */
  lemma TrackingIdempotent(st: OrderState, data: CourierReply, t1: int, t2: int)
    ensures ApplyTracking(ApplyTracking(st, data, t1), data, t2) == ApplyTracking(st, data, t1)
  {
  }

  // ---------------------------------------------------------------------------------------
  // Statistics

  datatype Statistics = Statistics(
    totalOrders: nat,
    pendingOrders: nat,
    activeOrders: nat,
    completedOrders: nat,
    cancelledOrders: nat,
    totalShippingCost: int)

  /** How many rows have a status satisfying `p`: none exactly when no row does, all exactly when every row does. */
  function CountWhere(rows: seq<OrderRow>, p: Status -> bool): (n: nat)
    ensures n <= |rows|
    ensures n == 0 <==> forall i :: 0 <= i < |rows| ==> !p(rows[i].status)
    ensures n == |rows| <==> forall i :: 0 <= i < |rows| ==> p(rows[i].status)
  {
    if rows == [] then 0 else (if p(rows[0].status) then 1 else 0) + CountWhere(rows[1..], p)
  }

  function SumTotals(rows: seq<OrderRow>): int {
    if rows == [] then 0 else rows[0].totalCost + SumTotals(rows[1..])
  }

  /** `$user->orders()`: every row the user owns, as often as it occurs, and no other row. */
  function OwnedBy(rows: seq<OrderRow>, userId: int): (owned: seq<OrderRow>)
    ensures |owned| <= |rows|
    ensures forall r :: r in owned <==> r in rows && r.userId == userId
    ensures forall r :: multiset(owned)[r] == if r.userId == userId then multiset(rows)[r] else 0
  {
    if rows == [] then []
    else
      var rest := OwnedBy(rows[1..], userId);
      assert rows == [rows[0]] + rows[1..];
      assert multiset(rows) == multiset{rows[0]} + multiset(rows[1..]);
      assert forall r :: r in rows <==> r == rows[0] || r in rows[1..];
      if rows[0].userId == userId then [rows[0]] + rest else rest
  }

  predicate IsPendingStatus(s: Status) {
    s == Pending
  }

  predicate IsCourierNotFound(s: Status) {
    s == CourierNotFound
  }

  /** The counts over one query: the whole table for an admin, the user's own orders otherwise. */
  function StatisticsOf(rows: seq<OrderRow>): (s: Statistics)
    ensures s.totalOrders == |rows|
    ensures s.activeOrders + s.completedOrders + s.cancelledOrders <= s.totalOrders
    ensures s.pendingOrders <= s.activeOrders
  {
    CountsPartition(rows);
    Statistics(
      |rows|,
      CountWhere(rows, IsPendingStatus),
      CountWhere(rows, ScopeActive),
      CountWhere(rows, ScopeCompleted),
      CountWhere(rows, ScopeCancelled),
      SumTotals(rows))
  }

  /** `getOrderStatistics`. */
  function OrderStatistics(rows: seq<OrderRow>, user: UserRole.Actor, isAdmin: bool): (s: Statistics)
    ensures isAdmin ==> s.totalOrders == |rows|
    ensures !isAdmin ==> s.totalOrders == |OwnedBy(rows, user.id)|
  {
    if isAdmin then StatisticsOf(rows) else StatisticsOf(OwnedBy(rows, user.id))
  }

  /**
   * The active, completed and cancelled counts add up to the total less the
   * `courier_not_found` orders, which no scope counts; pending orders are also active.
   */
  lemma {:induction false} CountsPartition(rows: seq<OrderRow>)
    ensures CountWhere(rows, ScopeActive) + CountWhere(rows, ScopeCompleted)
            + CountWhere(rows, ScopeCancelled) + CountWhere(rows, IsCourierNotFound) == |rows|
    ensures CountWhere(rows, IsPendingStatus) <= CountWhere(rows, ScopeActive)
  {
    if rows != [] {
      CountsPartition(rows[1..]);
      ScopesAgainstStatus(rows[0].status);
    }
  }

  lemma StatisticsPartition(rows: seq<OrderRow>, user: UserRole.Actor, isAdmin: bool)
    ensures var s := OrderStatistics(rows, user, isAdmin);
      var scope := if isAdmin then rows else OwnedBy(rows, user.id);
      && s.activeOrders + s.completedOrders + s.cancelledOrders
         == s.totalOrders - CountWhere(scope, IsCourierNotFound)
      && s.pendingOrders <= s.activeOrders
      && s.totalShippingCost == SumTotals(scope)
  {
    CountsPartition(if isAdmin then rows else OwnedBy(rows, user.id));
  }

  /** A user who owns no orders sees only zeros, whatever the rest of the table holds. */
  lemma NoOwnOrdersNoStatistics(rows: seq<OrderRow>, user: UserRole.Actor)
    requires forall r :: r in rows ==> r.userId != user.id
    ensures OrderStatistics(rows, user, false) == Statistics(0, 0, 0, 0, 0, 0)
  {
  }

  // ---------------------------------------------------------------------------------------
  // The engine

  /** What `createBiteshipOrder` does to the order and the gateway, given the state before. */
  twostate predicate CourierOrderCreated(o: Order, gateway: Gateway, ownerEmail: string, appName: string,
                                         r: Outcome)
    reads o, gateway
  {
    var before := old(o.State());
    var req := CreateOrderRequest(gateway.config.apiUrl,
                                  CourierPayloadFor(o.userId, o.orderNumber, o.details, before, ownerEmail, appName));
    var out := ApplyCreateReply(before, Interpret(CreatingOrder, old(gateway.Respond(req))));
    && gateway.log == old(gateway.log) + [req]
    && (out.Success? ==> r == Pass && o.State() == out.value)
    && (out.Failure? ==> r == Fail(out.error) && o.State() == before)
  }

  class OrderService {
    const gateway: Gateway

    constructor (gateway: Gateway)
      ensures this.gateway == gateway
    {
      this.gateway := gateway;
    }

    /** `createBiteshipOrder`: submit the order to the courier and merge the reply. */
    method CreateBiteshipOrder(o: Order, ownerEmail: string, appName: string) returns (r: Outcome)
      modifies o, gateway
      ensures CourierOrderCreated(o, gateway, ownerEmail, appName, r)
    {
      var payload := CourierPayloadFor(o.userId, o.orderNumber, o.details, o.State(), ownerEmail, appName);
      var answer := gateway.CreateOrder(payload);
      var out := ApplyCreateReply(o.State(), answer);
      if out.Success? {
        o.Update(out.value);
        r := Pass;
      } else {
        r := Fail(out.error);
      }
    }

    /**
     * `createOrder`: a fresh number, a pending order with zero costs, and, when requested, the
     * courier submission in the same transaction, whose failure discards the new order.
     */
    method CreateOrder(user: UserRole.Actor, req: CreateRequest, date: string, draws: seq<int>,
                       taken: set<string>, appName: string)
      returns (r: Result<Order>)
      requires IsDateStamp(date)
      requires forall i :: 0 <= i < |draws| ==> ValidDraw(draws[i])
      requires exists i :: 0 <= i < |draws| && OrderNumber(date, draws[i]) !in taken
      modifies gateway
      ensures r.Success? ==> fresh(r.value)
      ensures r.Success? ==> r.value.userId == user.id && r.value.details == req.details
      ensures r.Success? ==> r.value.orderNumber !in taken
      ensures r.Success? ==>
                exists i :: FirstFreeDraw(date, draws, taken, i) && r.value.orderNumber == OrderNumber(date, draws[i])
      ensures r.Success? ==> r.value.packageType == req.packageType.GetOr("package")
      ensures !req.autoCreateCourierOrder ==>
                r.Success? && gateway.log == old(gateway.log)
                && r.value.State() == CreatedState(req.insuranceCost, req.notes)
      ensures req.autoCreateCourierOrder ==>
                exists i :: FirstFreeDraw(date, draws, taken, i) &&
                  var created := CreatedState(req.insuranceCost, req.notes);
                  var request := CreateOrderRequest(gateway.config.apiUrl,
                    CourierPayloadFor(user.id, OrderNumber(date, draws[i]), req.details, created, user.email, appName));
                  var out := ApplyCreateReply(created, Interpret(CreatingOrder, old(gateway.Respond(request))));
                  && gateway.log == old(gateway.log) + [request]
                  && (r.Success? <==> out.Success?)
                  && (r.Failure? ==> r.error == out.error)
                  && (r.Success? ==> r.value.orderNumber == OrderNumber(date, draws[i]) && r.value.State() == out.value)
    {
      var number, attempt := GenerateOrderNumber(date, draws, taken);
      assert FirstFreeDraw(date, draws, taken, attempt);
      var o := new Order(user.id, number, req.packageType.GetOr("package"), req.details,
                         CreatedState(req.insuranceCost, req.notes));
      if req.autoCreateCourierOrder {
        var out := CreateBiteshipOrder(o, user.email, appName);
        if out.Fail? {
          return Failure(out.error);
        }
      }
      return Success(o);
    }

    /** `confirmOrder`: only a pending order without a courier id is submitted. */
    method ConfirmOrder(o: Order, ownerEmail: string, appName: string) returns (r: Outcome)
      modifies o, gateway
      ensures ConfirmGuard(old(o.State())).Some? ==>
                r == Fail(ConfirmGuard(old(o.State())).value)
                && o.State() == old(o.State()) && gateway.log == old(gateway.log)
      ensures ConfirmGuard(old(o.State())).None? ==> CourierOrderCreated(o, gateway, ownerEmail, appName, r)
    {
      var guard := ConfirmGuard(o.State());
      if guard.Some? {
        return Fail(guard.value);
      }
      r := CreateBiteshipOrder(o, ownerEmail, appName);
    }

    /** `updateOrderStatus`: re-read the courier's order and merge it. */
    method UpdateOrderStatus(o: Order, now: int) returns (r: Outcome)
      modifies o, gateway
      ensures RefreshGuard(old(o.State())).Some? ==>
                r == Fail(RefreshGuard(old(o.State())).value)
                && o.State() == old(o.State()) && gateway.log == old(gateway.log)
      ensures RefreshGuard(old(o.State())).None? ==>
                var request := GetOrderRequest(gateway.config.apiUrl, old(o.externalId.value));
                var out := ApplyRefreshReply(old(o.State()), Interpret(GettingOrder, old(gateway.Respond(request))), now);
                && gateway.log == old(gateway.log) + [request]
                && (out.Success? ==> r == Pass && o.State() == out.value)
                && (out.Failure? ==> r == Fail(out.error) && o.State() == old(o.State()))
    {
      var guard := RefreshGuard(o.State());
      if guard.Some? {
        return Fail(guard.value);
      }
      var answer := gateway.GetOrder(o.externalId.value);
      var out := ApplyRefreshReply(o.State(), answer, now);
      if out.Success? {
        o.Update(out.value);
        r := Pass;
      } else {
        r := Fail(out.error);
      }
    }

    /**
     * `cancelOrder`: only inside the cancellable window; the courier is asked first when it
     * knows the order, and its refusal aborts the cancellation.
     */
    method CancelOrder(o: Order, reason: Option<string>) returns (r: Outcome)
      modifies o, gateway
      ensures CancelGuard(old(o.State())).Some? ==>
                r == Fail(CancelGuard(old(o.State())).value)
                && o.State() == old(o.State()) && gateway.log == old(gateway.log)
      ensures CancelGuard(old(o.State())).None? && !Present(old(o.externalId)) ==>
                r == Pass && o.State() == CancelledState(old(o.State()), reason)
                && gateway.log == old(gateway.log)
      ensures CancelGuard(old(o.State())).None? && Present(old(o.externalId)) ==>
                var request := CancelOrderRequest(gateway.config.apiUrl, old(o.externalId.value), CancelReason(reason));
                var answer := Interpret(CancellingOrder, old(gateway.Respond(request)));
                && gateway.log == old(gateway.log) + [request]
                && (answer.Success? ==> r == Pass && o.State() == CancelledState(old(o.State()), reason))
                && (answer.Failure? ==> r == Fail(answer.error) && o.State() == old(o.State()))
    {
      var guard := CancelGuard(o.State());
      if guard.Some? {
        return Fail(guard.value);
      }
      if Present(o.externalId) {
        var answer := gateway.CancelOrder(o.externalId.value, CancelReason(reason));
        if answer.Failure? {
          return Fail(answer.error);
        }
      }
      o.Update(CancelledState(o.State(), reason));
      r := Pass;
    }

    /** `trackOrder`: fetch the tracking record, adopt its status, and hand the record back. */
    method TrackOrder(o: Order, now: int) returns (r: Result<CourierReply>)
      modifies o, gateway
      ensures TrackGuard(old(o.State())).Some? ==>
                r == Failure(TrackGuard(old(o.State())).value)
                && o.State() == old(o.State()) && gateway.log == old(gateway.log)
      ensures TrackGuard(old(o.State())).None? ==>
                var request := TrackRequest(gateway.config.apiUrl, old(o.trackingId.value));
                var answer := Interpret(TrackingPackage, old(gateway.Respond(request)));
                && gateway.log == old(gateway.log) + [request]
                && r == answer
                && (answer.Success? ==> o.State() == ApplyTracking(old(o.State()), answer.value, now))
                && (answer.Failure? ==> o.State() == old(o.State()))
    {
      var guard := TrackGuard(o.State());
      if guard.Some? {
        return Failure(guard.value);
      }
      r := gateway.TrackByOrderId(o.trackingId.value);
      if r.Success? {
        var next := ApplyTracking(o.State(), r.value, now);
        if next != o.State() {
          o.Update(next);
        }
      }
    }
  }
}
