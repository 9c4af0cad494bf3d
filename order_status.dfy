/**
 * The closed set of order states (app/Enums/OrderStatus.php): the backing strings,
 * the presentation tables and the three category predicates.
 */
module OrderStatus {
  import opened Wrappers

  datatype Status =
    | Pending | Confirmed | Scheduled | Allocated | PickingUp | Picked | Cancelled | OnHold
    | DroppingOff | ReturnInTransit | Returned | Rejected | Disposed | CourierNotFound | Delivered

  /** Every case, in declaration order. */
  const AllStatuses: seq<Status> := [
    Pending, Confirmed, Scheduled, Allocated, PickingUp, Picked, Cancelled, OnHold,
    DroppingOff, ReturnInTransit, Returned, Rejected, Disposed, CourierNotFound, Delivered
  ]

  /** The string that backs each case (the enum's `->value`). */
  function Value(s: Status): (v: string)
    ensures v != "" && forall i :: 0 <= i < |v| ==> 'a' <= v[i] <= 'z' || v[i] == '_'
  {
    match s
    case Pending => "pending"
    case Confirmed => "confirmed"
    case Scheduled => "scheduled"
    case Allocated => "allocated"
    case PickingUp => "picking_up"
    case Picked => "picked"
    case Cancelled => "cancelled"
    case OnHold => "on_hold"
    case DroppingOff => "dropping_off"
    case ReturnInTransit => "return_in_transit"
    case Returned => "returned"
    case Rejected => "rejected"
    case Disposed => "disposed"
    case CourierNotFound => "courier_not_found"
    case Delivered => "delivered"
  }

  /** The backed enum's `tryFrom`: the case whose value is `v`, if there is one. */
  function TryFrom(v: string): (r: Option<Status>)
    ensures r.Some? ==> Value(r.value) == v
  {
    if v == "pending" then Some(Pending)
    else if v == "confirmed" then Some(Confirmed)
    else if v == "scheduled" then Some(Scheduled)
    else if v == "allocated" then Some(Allocated)
    else if v == "picking_up" then Some(PickingUp)
    else if v == "picked" then Some(Picked)
    else if v == "cancelled" then Some(Cancelled)
    else if v == "on_hold" then Some(OnHold)
    else if v == "dropping_off" then Some(DroppingOff)
    else if v == "return_in_transit" then Some(ReturnInTransit)
    else if v == "returned" then Some(Returned)
    else if v == "rejected" then Some(Rejected)
    else if v == "disposed" then Some(Disposed)
    else if v == "courier_not_found" then Some(CourierNotFound)
    else if v == "delivered" then Some(Delivered)
    else None
  }

  /** There are exactly fifteen cases, each listed once. */
  lemma AllStatusesComplete()
    ensures |AllStatuses| == 15
    ensures forall s: Status :: s in AllStatuses
    ensures forall i, j :: 0 <= i < j < |AllStatuses| ==> AllStatuses[i] != AllStatuses[j]
  {
    forall s: Status
      ensures s in AllStatuses
    {
      match s
      case Pending => assert AllStatuses[0] == s;
      case Confirmed => assert AllStatuses[1] == s;
      case Scheduled => assert AllStatuses[2] == s;
      case Allocated => assert AllStatuses[3] == s;
      case PickingUp => assert AllStatuses[4] == s;
      case Picked => assert AllStatuses[5] == s;
      case Cancelled => assert AllStatuses[6] == s;
      case OnHold => assert AllStatuses[7] == s;
      case DroppingOff => assert AllStatuses[8] == s;
      case ReturnInTransit => assert AllStatuses[9] == s;
      case Returned => assert AllStatuses[10] == s;
      case Rejected => assert AllStatuses[11] == s;
      case Disposed => assert AllStatuses[12] == s;
      case CourierNotFound => assert AllStatuses[13] == s;
      case Delivered => assert AllStatuses[14] == s;
    }
  }

  /** `tryFrom` inverts `value`; in particular no two cases share a backing string. */
  lemma TryFromValue(s: Status)
    ensures TryFrom(Value(s)) == Some(s)
  {
  }

  lemma ValuesDistinct(a: Status, b: Status)
    ensures Value(a) == Value(b) ==> a == b
  {
    TryFromValue(a);
    TryFromValue(b);
  }

  /** A string that backs no case parses to nothing. */
  lemma TryFromUnknown(v: string)
    requires forall s: Status :: Value(s) != v
    ensures TryFrom(v) == None
  {
  }

  /** The caption shown to people: capitalised, never empty. */
  function Label(s: Status): (l: string)
    ensures l != "" && 'A' <= l[0] <= 'Z'
  {
    match s
    case Pending => "Pending"
    case Confirmed => "Confirmed"
    case Scheduled => "Scheduled"
    case Allocated => "Allocated"
    case PickingUp => "Picking Up"
    case Picked => "Picked"
    case Cancelled => "Cancelled"
    case OnHold => "On Hold"
    case DroppingOff => "Dropping Off"
    case ReturnInTransit => "Return in Transit"
    case Returned => "Returned"
    case Rejected => "Rejected"
    case Disposed => "Disposed"
    case CourierNotFound => "Courier Not Found"
    case Delivered => "Delivered"
  }

  /** Labels are non-empty and tell the cases apart. */
  lemma LabelsDistinct(a: Status, b: Status)
    ensures Label(a) != ""
    ensures Label(a) == Label(b) ==> a == b
  {
  }

  /** The Bootstrap contextual class of the status badge. */
  function Color(s: Status): (c: string)
    ensures c in {"warning", "info", "primary", "success", "danger", "secondary"}
  {
    match s
    case Pending => "warning"
    case Confirmed | Scheduled | Allocated => "info"
    case PickingUp | Picked | DroppingOff => "primary"
    case Delivered => "success"
    case Cancelled | Rejected | Disposed | CourierNotFound => "danger"
    case OnHold | ReturnInTransit | Returned => "secondary"
  }

  /** The colours the dashboard shows for alarming and for successful orders. */
  lemma ColorClasses(s: Status)
    ensures Color(s) in {"warning", "info", "primary", "success", "danger", "secondary"}
    ensures Color(s) == "danger" <==> s in {Cancelled, Rejected, Disposed, CourierNotFound}
    ensures Color(s) == "success" <==> s == Delivered
  {
  }

  /** Still under way: neither finished nor called off. */
  predicate IsActive(s: Status)
    ensures IsActive(s) <==> !IsCompleted(s) && !IsCancelled(s)
  {
    s !in {Cancelled, Rejected, Disposed, Delivered, Returned}
  }

  /** Finished with the parcel at an address: never also a cancelled state. */
  predicate IsCompleted(s: Status)
    ensures IsCompleted(s) ==> !IsCancelled(s) && Color(s) in {"success", "secondary"}
  {
    s in {Delivered, Returned}
  }

  /** Called off one way or another: every such state is shown as alarming. */
  predicate IsCancelled(s: Status)
    ensures IsCancelled(s) ==> Color(s) == "danger"
  {
    s in {Cancelled, Rejected, Disposed}
  }

  /**
   * Every case is exactly one of active, completed or cancelled: not being active means
   * having finished one way or the other.
   */
  lemma CategoriesPartition(s: Status)
    ensures !(IsCompleted(s) && IsCancelled(s))
    ensures !IsActive(s) <==> IsCompleted(s) || IsCancelled(s)
    ensures IsActive(s) ==> !IsCompleted(s) && !IsCancelled(s)
  {
  }

  /** The waiting and the failed-allocation states both count as active. */
  lemma PendingAndCourierNotFoundAreActive()
    ensures IsActive(Pending) && IsActive(CourierNotFound)
    ensures IsCancelled(Cancelled) && IsCancelled(Rejected) && IsCancelled(Disposed)
    ensures IsCompleted(Delivered) && IsCompleted(Returned)
  {
  }
}
