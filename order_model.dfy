/**
 * The order record (app/Models/Order.php): its fields, the cancellable and trackable tests,
 * the dashboard query scopes, the address accessors and the order-number generator.
 */
module OrderModel {
  import opened Wrappers
  import opened Text
  import opened OrderStatus
  import Biteship

  /** The sender, receiver, package and courier columns, which the lifecycle never changes. */
  datatype OrderDetails = OrderDetails(
    senderName: string,
    senderPhone: string,
    senderAddress: string,
    senderPostalCode: string,
    senderLatitude: Option<int>,
    senderLongitude: Option<int>,
    receiverName: string,
    receiverPhone: string,
    receiverAddress: string,
    receiverPostalCode: string,
    receiverLatitude: Option<int>,
    receiverLongitude: Option<int>,
    packageWeight: int,
    packageLength: Option<int>,
    packageWidth: Option<int>,
    packageHeight: Option<int>,
    packageDescription: Option<string>,
    packageValue: Option<int>,
    courierCode: string,
    courierService: string)

  /** The columns the lifecycle operations write. Money is in whole currency units. */
  datatype OrderState = OrderState(
    status: Status,
    externalId: Option<string>,
    waybillId: Option<string>,
    trackingId: Option<string>,
    shippingCost: int,
    insuranceCost: int,
    totalCost: int,
    notes: Option<string>,
    deliveredAt: Option<int>,
    courierResponse: Option<Biteship.CourierReply>)

  /** `canBeCancelled`: only before the courier has started working on the shipment. */
  predicate CanBeCancelled(s: Status)
    ensures CanBeCancelled(s) ==> IsActive(s) && Color(s) in {"warning", "info"}
  {
    s in {Pending, Confirmed, Scheduled}
  }

  /** The cancellable window lies inside the active states. */
  lemma CancellableIsActive(s: Status)
    ensures CanBeCancelled(s) ==> IsActive(s) && !IsCompleted(s) && !IsCancelled(s)
    ensures CanBeCancelled(s) <==> s == Pending || s == Confirmed || s == Scheduled
  {
  }

  /** `isTrackable`: a waybill that is not `empty()` and an active status. */
  predicate IsTrackable(st: OrderState)
    ensures IsTrackable(st) ==> st.waybillId.Some? && st.waybillId.value != ""
    ensures IsTrackable(st) ==> !IsCompleted(st.status) && !IsCancelled(st.status)
  {
    Present(st.waybillId) && IsActive(st.status)
  }

  /** A trackable order has neither finished nor been cancelled, and has a usable waybill. */
  lemma TrackableMeansInMotion(st: OrderState)
    ensures IsTrackable(st) ==> !IsCompleted(st.status) && !IsCancelled(st.status)
    ensures IsTrackable(st) ==> st.waybillId.Some? && st.waybillId.value != "" && st.waybillId.value != "0"
    ensures st.status == Delivered ==> !IsTrackable(st)
  {
    CategoriesPartition(st.status);
  }

  /** The `full_sender_address` / `full_receiver_address` accessors. */
  function FullAddress(address: string, postalCode: string): (r: string)
    ensures |r| == |address| + 2 + |postalCode|
    ensures r[..|address|] == address && r[|address|..|address| + 2] == ", "
    ensures r[|address| + 2..] == postalCode
  {
    address + ", " + postalCode
  }

  function FullSenderAddress(d: OrderDetails): string {
    FullAddress(d.senderAddress, d.senderPostalCode)
  }

  function FullReceiverAddress(d: OrderDetails): string {
    FullAddress(d.receiverAddress, d.receiverPostalCode)
  }

  // The three dashboard query scopes, as the status lists their `whereIn` clauses name.

  predicate ScopeActive(s: Status)
    ensures ScopeActive(s) ==> IsActive(s) && s != CourierNotFound
  {
    s in {Pending, Confirmed, Scheduled, Allocated, PickingUp, Picked, DroppingOff, OnHold, ReturnInTransit}
  }

  predicate ScopeCompleted(s: Status)
    ensures ScopeCompleted(s) <==> IsCompleted(s)
  {
    s in {Delivered, Returned}
  }

  predicate ScopeCancelled(s: Status)
    ensures ScopeCancelled(s) <==> IsCancelled(s)
  {
    s in {Cancelled, Rejected, Disposed}
  }

  /**
   * The completed and cancelled scopes agree with the enum's predicates; the active scope
   * leaves out `courier_not_found`, which the enum calls active, so that state is in no scope.
   */
  lemma ScopesAgainstStatus(s: Status)
    ensures ScopeCompleted(s) <==> IsCompleted(s)
    ensures ScopeCancelled(s) <==> IsCancelled(s)
    ensures ScopeActive(s) <==> IsActive(s) && s != CourierNotFound
    ensures s == CourierNotFound <==> !ScopeActive(s) && !ScopeCompleted(s) && !ScopeCancelled(s)
    ensures IsActive(CourierNotFound) && !ScopeActive(CourierNotFound)
  {
  }

  // Order numbers: "ORD-" + date('Ymd') + "-" + a 4-digit, zero-padded draw of mt_rand(1, 9999).

  predicate IsDateStamp(date: string) {
    |date| == 8 && AllDigits(date)
  }

  predicate ValidDraw(n: int) {
    1 <= n <= 9999
  }

  /** `str_pad(mt_rand(1, 9999), 4, '0', STR_PAD_LEFT)`. */
  function Suffix(n: int): string
    requires ValidDraw(n)
  {
    PadLeft(NatToString(n), 4, '0')
  }

  /** The suffix is four digits that read back as the draw, so it is never "0000". */
  lemma SuffixDigits(n: int)
    requires ValidDraw(n)
    ensures |Suffix(n)| == 4 && AllDigits(Suffix(n)) && DigitsValue(Suffix(n)) == n
    ensures Suffix(n) != "0000"
  {
    var digits := NatToString(n);
    NatToStringLength(n, 4);
    var padded := Suffix(n);
    var zeros := padded[..4 - |digits|];
    assert padded == zeros + digits;
    DigitsValueOfNatToString(n);
    DigitsValueLeadingZeros(zeros, digits);
    if padded == "0000" {
      DigitsValueOfZeros(padded);
    }
  }

  function OrderNumber(date: string, n: int): string
    requires ValidDraw(n)
  {
    "ORD-" + date + "-" + Suffix(n)
  }

  /** The number has the `ORD-YYYYMMDD-NNNN` shape, and its last four digits read back as the draw. */
  lemma OrderNumberFormat(date: string, n: int)
    requires IsDateStamp(date) && ValidDraw(n)
    ensures |OrderNumber(date, n)| == 17
    ensures OrderNumber(date, n)[..13] == "ORD-" + date + "-"
    ensures OrderNumber(date, n)[13..] == Suffix(n)
    ensures AllDigits(Suffix(n)) && DigitsValue(Suffix(n)) == n && Suffix(n) != "0000"
  {
    SuffixDigits(n);
    var head := "ORD-" + date + "-";
    assert |head| == 13;
    assert OrderNumber(date, n) == head + Suffix(n);
    assert OrderNumber(date, n)[..13] == head;
  }

  /** Distinct draws give distinct numbers on the same day. */
  lemma OrderNumberInjective(date: string, n: int, m: int)
    requires IsDateStamp(date) && ValidDraw(n) && ValidDraw(m)
    ensures OrderNumber(date, n) == OrderNumber(date, m) ==> n == m
  {
    OrderNumberFormat(date, n);
    OrderNumberFormat(date, m);
  }

  /**
   * `generateOrderNumber`: draw, and draw again while the number is already taken. The random
   * source is the sequence `draws`; the source's loop ends only once a draw is free, which the
   * caller guarantees by `requires`. The result is the first free number among the draws.
   */
  /** Draw `i` is the first whose number is not taken yet. */
  predicate FirstFreeDraw(date: string, draws: seq<int>, taken: set<string>, i: int)
    requires IsDateStamp(date)
    requires forall j :: 0 <= j < |draws| ==> ValidDraw(draws[j])
  {
    && 0 <= i < |draws|
    && OrderNumber(date, draws[i]) !in taken
    && forall j :: 0 <= j < i ==> OrderNumber(date, draws[j]) in taken
  }

  /** At most one draw is the first free one, so the generated number is determined by the draws. */
  lemma FirstFreeDrawUnique(date: string, draws: seq<int>, taken: set<string>, i: int, k: int)
    requires IsDateStamp(date)
    requires forall j :: 0 <= j < |draws| ==> ValidDraw(draws[j])
    requires FirstFreeDraw(date, draws, taken, i) && FirstFreeDraw(date, draws, taken, k)
    ensures i == k
  {
  }

  method GenerateOrderNumber(date: string, draws: seq<int>, taken: set<string>)
    returns (number: string, attempt: nat)
    requires IsDateStamp(date)
    requires forall i :: 0 <= i < |draws| ==> ValidDraw(draws[i])
    requires exists i :: 0 <= i < |draws| && OrderNumber(date, draws[i]) !in taken
    ensures attempt < |draws| && number == OrderNumber(date, draws[attempt])
    ensures number !in taken
    ensures forall j :: 0 <= j < attempt ==> OrderNumber(date, draws[j]) in taken
  {
    attempt := 0;
    number := OrderNumber(date, draws[0]);
    while number in taken
      invariant 0 <= attempt < |draws|
      invariant number == OrderNumber(date, draws[attempt])
      invariant forall j :: 0 <= j < attempt ==> OrderNumber(date, draws[j]) in taken
      invariant exists i :: attempt <= i < |draws| && OrderNumber(date, draws[i]) !in taken
      decreases |draws| - attempt
    {
      attempt := attempt + 1;
      number := OrderNumber(date, draws[attempt]);
    }
  }

  /** The row a statistics query reads. */
  datatype OrderRow = OrderRow(userId: int, status: Status, totalCost: int)

  /** An `orders` record. The identity and detail columns are fixed when it is created. */
  class Order {
    const userId: int
    const orderNumber: string
    const packageType: string
    const details: OrderDetails
    var status: Status
    var externalId: Option<string>
    var waybillId: Option<string>
    var trackingId: Option<string>
    var shippingCost: int
    var insuranceCost: int
    var totalCost: int
    var notes: Option<string>
    var deliveredAt: Option<int>
    var courierResponse: Option<Biteship.CourierReply>

    function State(): OrderState
      reads this
    {
      OrderState(status, externalId, waybillId, trackingId, shippingCost, insuranceCost,
                 totalCost, notes, deliveredAt, courierResponse)
    }

    function Row(): OrderRow
      reads this
    {
      OrderRow(userId, status, totalCost)
    }

    /** `Order::create([...])`. */
    constructor (userId: int, orderNumber: string, packageType: string, details: OrderDetails,
                 initial: OrderState)
      ensures this.userId == userId && this.orderNumber == orderNumber
      ensures this.packageType == packageType && this.details == details
      ensures State() == initial
    {
      this.userId := userId;
      this.orderNumber := orderNumber;
      this.packageType := packageType;
      this.details := details;
      status := initial.status;
      externalId := initial.externalId;
      waybillId := initial.waybillId;
      trackingId := initial.trackingId;
      shippingCost := initial.shippingCost;
      insuranceCost := initial.insuranceCost;
      totalCost := initial.totalCost;
      notes := initial.notes;
      deliveredAt := initial.deliveredAt;
      courierResponse := initial.courierResponse;
    }

    /** `$order->update([...])`: one write of the lifecycle columns. */
    method Update(st: OrderState)
      modifies this
      ensures State() == st
    {
      status := st.status;
      externalId := st.externalId;
      waybillId := st.waybillId;
      trackingId := st.trackingId;
      shippingCost := st.shippingCost;
      insuranceCost := st.insuranceCost;
      totalCost := st.totalCost;
      notes := st.notes;
      deliveredAt := st.deliveredAt;
      courierResponse := st.courierResponse;
    }
  }
}
