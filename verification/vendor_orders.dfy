/**
 * The vendor's order board (pages/vendor/Orders.tsx): the two tabs the orders are
 * split into, the status buttons each order card offers, and the local update after a
 * status change.
 */
module VendorOrders {
  import opened Wrappers
  import opened Services
  import opened OrderList
  import opened Sequences

  const ActiveStatuses: seq<string> := ["pending", "accepted", "preparing", "ready"]
  const CompletedStatuses: seq<string> := ["completed", "cancelled", "rejected"]

  /** `orders.filter(order => group.includes(order.status))`. */
  function WithStatusIn(orders: seq<Order>, group: seq<string>): (r: seq<Order>)
    ensures |r| <= |orders|
    ensures forall o :: o in r <==> o in orders && o.status in group
    ensures Subsequence(r, orders)
  {
    if orders == [] then []
    else
      var rest := WithStatusIn(orders[1..], group);
      assert forall o :: o in orders <==> o == orders[0] || o in orders[1..];
      if orders[0].status in group then [orders[0]] + rest
      else
        assert rest != [] ==> rest[0] in rest && rest[0] != orders[0];
        rest
  }

  /**
   * `getOrdersByStatus`: the "active" tab holds exactly the pending, accepted, preparing
   * and ready orders, the "completed" tab exactly the completed, cancelled and rejected
   * ones, each in list order; any other filter gives nothing.
   */
  function OrdersByStatus(orders: seq<Order>, filter: string): (r: seq<Order>)
    ensures filter == "active" ==> forall o :: o in r <==> o in orders && o.status in ActiveStatuses
    ensures filter == "completed" ==> forall o :: o in r <==> o in orders && o.status in CompletedStatuses
    ensures filter != "active" && filter != "completed" ==> r == []
    ensures Subsequence(r, orders)
  {
    if filter == "active" then WithStatusIn(orders, ActiveStatuses)
    else if filter == "completed" then WithStatusIn(orders, CompletedStatuses)
    else []
  }

  /** No order is on both tabs, and an order whose status is in neither group is on no tab. */
  lemma TabsDisjoint(orders: seq<Order>, o: Order)
    ensures !(o in OrdersByStatus(orders, "active") && o in OrdersByStatus(orders, "completed"))
    ensures o.status !in ActiveStatuses && o.status !in CompletedStatuses ==>
              o !in OrdersByStatus(orders, "active") && o !in OrdersByStatus(orders, "completed")
  {
  }

  predicate KnownStatus(o: Order) {
    o.status in ActiveStatuses || o.status in CompletedStatuses
  }

  /** The two tab counters add up to at most the number of orders, and to exactly that
      number when every order's status is a known one. */
  lemma TabCounts(orders: seq<Order>)
    ensures |OrdersByStatus(orders, "active")| + |OrdersByStatus(orders, "completed")| <= |orders|
    ensures (forall k :: 0 <= k < |orders| ==> KnownStatus(orders[k])) ==>
              |OrdersByStatus(orders, "active")| + |OrdersByStatus(orders, "completed")| == |orders|
  {
    CountIsFilterSize(orders, ActiveStatuses);
    CountIsFilterSize(orders, CompletedStatuses);
    CountsAdd(orders);
  }

  /** No status is in both groups, so the two counts add up to at most the length. */
  lemma {:induction false} CountsAdd(orders: seq<Order>)
    ensures Count(orders, ActiveStatuses) + Count(orders, CompletedStatuses) <= |orders|
    ensures (forall k :: 0 <= k < |orders| ==> KnownStatus(orders[k])) ==>
              Count(orders, ActiveStatuses) + Count(orders, CompletedStatuses) == |orders|
  {
    if orders != [] {
      CountsAdd(orders[1..]);
      assert forall k :: 0 < k < |orders| ==> orders[k] == orders[1..][k - 1];
    }
  }

  /**
   * The buttons an order card offers, as the new status each one sends: Accept or Reject
   * for a pending order, Start Preparing for an accepted one, Mark as Ready for a
   * preparing one, Complete Order for a ready one, and none for any other status.
   */
  function NextStatuses(status: string): (r: seq<string>)
    ensures r != [] <==> status in ActiveStatuses
    ensures forall t :: t in r ==> t in ActiveStatuses || t in CompletedStatuses
  {
    match status
    case "pending" => ["accepted", "rejected"]
    case "accepted" => ["preparing"]
    case "preparing" => ["ready"]
    case "ready" => ["completed"]
    case _ => []
  }

  /** How far along an order is; every status with no button is as far as it goes. */
  function Stage(status: string): nat {
    match status
    case "pending" => 0
    case "accepted" => 1
    case "preparing" => 2
    case "ready" => 3
    case _ => 4
  }

  /** Every button moves the order strictly forward. */
  lemma ButtonsMoveForward(status: string, next: string)
    requires next in NextStatuses(status)
    ensures Stage(status) < Stage(next)
  {
  }

  /** A run of button clicks on one order, each offered by the status before it. */
  predicate ClickPath(path: seq<string>) {
    forall k :: 0 < k < |path| ==> path[k] in NextStatuses(path[k - 1])
  }

  /** No status recurs along a run of clicks: at most five statuses from the first one
      (pending, accepted, preparing, ready, completed), and a single one from any status
      with no buttons. */
  lemma {:induction false} ClickPathsEnd(path: seq<string>)
    requires path != [] && ClickPath(path)
    ensures |path| <= 5 - Stage(path[0])
  {
    if |path| > 1 {
      ButtonsMoveForward(path[0], path[1]);
      assert ClickPath(path[1..]) by {
        forall k | 0 < k < |path[1..]|
          ensures path[1..][k] in NextStatuses(path[1..][k - 1])
        {
          assert path[1..][k] == path[k + 1] && path[1..][k - 1] == path[k];
        }
      }
      ClickPathsEnd(path[1..]);
    }
  }

  /**
   * The completed tab draws its orders as plain cards, without the status buttons; and
   * since none of those statuses has a button on an order card either, they are final.
   */
  function ButtonsOnTab(tab: string, o: Order): (r: seq<string>)
    ensures tab == "completed" ==> r == []
    ensures tab == "active" ==> r == NextStatuses(o.status)
  {
    if tab == "active" then NextStatuses(o.status) else []
  }

  lemma CompletedAreFinal(orders: seq<Order>, o: Order)
    requires o in OrdersByStatus(orders, "completed")
    ensures NextStatuses(o.status) == [] && ButtonsOnTab("completed", o) == []
  {
  }

  /** What the page holds after a status change. */
  datatype Change = Change(orders: seq<Order>, sent: bool, error: Option<string>)


  /**
   * `handleStatusChange`: without a vendor id nothing is sent and nothing changes. The
   * list is updated only once the server accepts; when it refuses, the list is kept and
   * the error toast shows its message or "Failed to update order status".
   */
  function StatusChange(orders: seq<Order>, vendorId: Option<int>, orderId: int, newStatus: string,
                        reply: Reply): (r: Change)
    ensures !Truthy(vendorId) ==> r == Change(orders, false, None)
    ensures Truthy(vendorId) ==> r.sent
    ensures r.error == None ==> r.orders == (if r.sent then SetStatus(orders, orderId, newStatus) else orders)
    ensures r.error != None ==> r.orders == orders && reply.Refused?
                                && r.error.value == reply.message.GetOr("Failed to update order status")
    ensures r.sent && reply.Done? ==> r.error == None
  {
    if !Truthy(vendorId) then Change(orders, false, None)
    else match reply
      case Done => Change(SetStatus(orders, orderId, newStatus), true, None)
      case Refused(m) => Change(orders, true, Some(m.GetOr("Failed to update order status")))
  }

  /** How many orders have a status in the group. */
  function Count(orders: seq<Order>, group: seq<string>): nat {
    if orders == [] then 0 else (if orders[0].status in group then 1 else 0) + Count(orders[1..], group)
  }

  /** The count is the size of the filtered list. */
  lemma {:induction false} CountIsFilterSize(orders: seq<Order>, group: seq<string>)
    ensures Count(orders, group) == |WithStatusIn(orders, group)|
  {
    if orders != [] {
      CountIsFilterSize(orders[1..], group);
    }
  }

  /**
   * Moving an active order into a completed-tab status moves exactly one order between
   * the tabs: the active count drops by one and the completed count rises by one.
   */
  lemma MoveToCompletedTab(orders: seq<Order>, id: int, status: string)
    requires UniqueIds(orders)
    requires StatusOf(orders, id) != None && StatusOf(orders, id).value in ActiveStatuses
    requires status in CompletedStatuses
    ensures |OrdersByStatus(SetStatus(orders, id, status), "active")| == |OrdersByStatus(orders, "active")| - 1
    ensures |OrdersByStatus(SetStatus(orders, id, status), "completed")| == |OrdersByStatus(orders, "completed")| + 1
  {
    var after := SetStatus(orders, id, status);
    MoveCounts(orders, id, status);
    CountIsFilterSize(orders, ActiveStatuses);
    CountIsFilterSize(orders, CompletedStatuses);
    CountIsFilterSize(after, ActiveStatuses);
    CountIsFilterSize(after, CompletedStatuses);
  }

  lemma {:induction false} MoveCounts(orders: seq<Order>, id: int, status: string)
    requires UniqueIds(orders)
    requires StatusOf(orders, id) != None && StatusOf(orders, id).value in ActiveStatuses
    requires status in CompletedStatuses
    ensures Count(SetStatus(orders, id, status), ActiveStatuses) == Count(orders, ActiveStatuses) - 1
    ensures Count(SetStatus(orders, id, status), CompletedStatuses) == Count(orders, CompletedStatuses) + 1
  {
    var after := SetStatus(orders, id, status);
    assert after[1..] == SetStatus(orders[1..], id, status);
    if orders[0].orderId == id {
      assert !HasId(orders[1..], id) by {
        forall k | 0 <= k < |orders[1..]| ensures orders[1..][k].orderId != id {
          assert orders[1..][k] == orders[k + 1];
        }
      }
      SetStatusAbsent(orders[1..], id, status);
    } else {
      UniqueIdsTail(orders);
      MoveCounts(orders[1..], id, status);
    }
  }
}
