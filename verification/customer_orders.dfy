/**
 * The customer's order list (pages/customer/Orders.tsx): when an order may still be
 * cancelled, the local update after a cancellation, and the label and icon each status
 * is shown with.
 */
module CustomerOrders {
  import opened Wrappers
  import opened Services
  import opened Text
  import opened OrderList
  import VendorOrders

  /** The Cancel Order button is shown exactly for pending, accepted and preparing orders. */
  predicate CanCancel(status: string) {
    status == "pending" || status == "accepted" || status == "preparing"
  }

  /** A cancellable order is one the vendor can still act on, short of being ready; a
      cancelled order offers nothing to either side. */
  lemma CancellableOrders(status: string)
    ensures CanCancel(status) <==> status in VendorOrders.ActiveStatuses && status != "ready"
    ensures !CanCancel("cancelled") && VendorOrders.NextStatuses("cancelled") == []
  {
  }

  /** What the page holds after a cancellation. */
  datatype Cancellation = Cancellation(orders: seq<Order>, error: Option<string>)

  /**
   * `handleCancelOrder`: once the server accepts, the order with that id is marked
   * "cancelled" and nothing else changes; when it refuses, the list is kept and the
   * error toast shows its message or "Failed to cancel order".
   */
  function CancelOrder(orders: seq<Order>, orderId: int, reply: Reply): (r: Cancellation)
    ensures reply.Done? ==> r.error == None && |r.orders| == |orders|
    ensures reply.Done? ==> forall k :: 0 <= k < |orders| ==>
              r.orders[k] == (if orders[k].orderId == orderId then orders[k].(status := "cancelled") else orders[k])
    ensures reply.Refused? ==> r == Cancellation(orders, Some(reply.message.GetOr("Failed to cancel order")))
  {
    match reply
    case Done => Cancellation(SetStatus(orders, orderId, "cancelled"), None)
    case Refused(m) => Cancellation(orders, Some(m.GetOr("Failed to cancel order")))
  }

  /** After an accepted cancellation the order reads back as cancelled, can no longer be
      cancelled, and every other order keeps its status. */
  lemma CancelledStaysCancelled(orders: seq<Order>, orderId: int, other: int)
    requires HasId(orders, orderId)
    ensures var after := CancelOrder(orders, orderId, Done).orders;
            StatusOf(after, orderId) == Some("cancelled") && !CanCancel(StatusOf(after, orderId).value)
            && (other != orderId ==> StatusOf(after, other) == StatusOf(orders, other))
  {
    StatusOfAfterSet(orders, orderId, "cancelled", other);
  }

  /** `getStatusLabel`. */
  function StatusLabel(status: string): (r: string)
    ensures status == "ready" ==> r == "READY FOR PICKUP"
    ensures status == "completed" ==> r == "DELIVERED"
  {
    if status == "pending" then "PENDING"
    else if status == "accepted" then "ACCEPTED"
    else if status == "preparing" then "PREPARING"
    else if status == "ready" then "READY FOR PICKUP"
    else if status == "completed" then "DELIVERED"
    else if status == "cancelled" then "CANCELLED"
    else if status == "rejected" then "REJECTED"
    else Upper(status)
  }

  /** Every status but "ready" and "completed", known or not, is shown in capitals. */
  lemma LabelIsUpperCase(status: string)
    requires status != "ready" && status != "completed"
    ensures StatusLabel(status) == Upper(status)
  {
    if status == "pending" {
      UpperOf(status, "PENDING");
    } else if status == "accepted" {
      UpperOf(status, "ACCEPTED");
    } else if status == "preparing" {
      UpperOf(status, "PREPARING");
    } else if status == "cancelled" {
      UpperOf(status, "CANCELLED");
    } else if status == "rejected" {
      UpperOf(status, "REJECTED");
    }
  }

  lemma UpperOf(word: string, upper: string)
    requires |word| == |upper|
    requires forall i :: 0 <= i < |word| ==> 'a' <= word[i] <= 'z' && upper[i] as int == word[i] as int - 32
    ensures Upper(word) == upper
  {
  }

  datatype Icon = Clock | PackageIcon | CheckCircle | XCircle

  /** `getStatusIcon`. */
  function StatusIcon(status: string): (r: Option<Icon>)
    ensures r == Some(Clock) <==> status == "pending" || status == "accepted"
    ensures r == Some(PackageIcon) <==> status == "preparing"
    ensures r == Some(CheckCircle) <==> status == "ready" || status == "completed"
    ensures r == Some(XCircle) <==> status == "cancelled" || status == "rejected"
    ensures r == None <==> status !in VendorOrders.ActiveStatuses && status !in VendorOrders.CompletedStatuses
  {
    match status
    case "pending" => Some(Clock)
    case "accepted" => Some(Clock)
    case "preparing" => Some(PackageIcon)
    case "ready" => Some(CheckCircle)
    case "completed" => Some(CheckCircle)
    case "cancelled" => Some(XCircle)
    case "rejected" => Some(XCircle)
    case _ => None
  }
}
