/**
 * The order list both order pages hold in their state (pages/vendor/Orders.tsx and
 * pages/customer/Orders.tsx) and the one update both make to it: after the server
 * accepts a status change, the order with that id gets the new status.
 */
module OrderList {
  import opened Wrappers

  /** One order as the pages show it; `party` is the customer's name on the vendor's
      page and the vendor's name on the customer's. */
  datatype Order = Order(orderId: int, status: string, party: string, totalAmount: int)


  predicate UniqueIds(orders: seq<Order>) {
    forall i, j :: 0 <= i < j < |orders| ==> orders[i].orderId != orders[j].orderId
  }

  predicate HasId(orders: seq<Order>, id: int) {
    exists k :: 0 <= k < |orders| && orders[k].orderId == id
  }

  lemma UniqueIdsTail(orders: seq<Order>)
    requires orders != [] && UniqueIds(orders)
    ensures UniqueIds(orders[1..])
  {
    forall i, j | 0 <= i < j < |orders| - 1 ensures orders[1..][i].orderId != orders[1..][j].orderId {
      assert orders[1..][i] == orders[i + 1] && orders[1..][j] == orders[j + 1];
    }
  }

  /** The status of the first order with this id. */
  function StatusOf(orders: seq<Order>, id: int): (r: Option<string>)
    ensures r == None <==> !HasId(orders, id)
  {
    if orders == [] then None
    else if orders[0].orderId == id then Some(orders[0].status)
    else
      assert forall k :: 0 < k < |orders| ==> orders[k] == orders[1..][k - 1];
      StatusOf(orders[1..], id)
  }

  /**
   * `orders.map(order => order.order_id === id ? { ...order, status } : order)`: every
   * order with this id gets the status, each keeping its other fields; every other order
   * and the order of the list are untouched.
   */
  function SetStatus(orders: seq<Order>, id: int, status: string): (r: seq<Order>)
    ensures |r| == |orders|
    ensures forall k :: 0 <= k < |orders| && orders[k].orderId == id ==> r[k] == orders[k].(status := status)
    ensures forall k :: 0 <= k < |orders| && orders[k].orderId != id ==> r[k] == orders[k]
  {
    if orders == [] then []
    else
      var head := if orders[0].orderId == id then orders[0].(status := status) else orders[0];
      [head] + SetStatus(orders[1..], id, status)
  }

  /** An id not in the list changes nothing. */
  lemma SetStatusAbsent(orders: seq<Order>, id: int, status: string)
    requires !HasId(orders, id)
    ensures SetStatus(orders, id, status) == orders
  {
  }

  /** The ids, and so their uniqueness, survive the update. */
  lemma SetStatusKeepsIds(orders: seq<Order>, id: int, status: string)
    requires UniqueIds(orders)
    ensures UniqueIds(SetStatus(orders, id, status))
  {
  }

  /** Read back after the update: the order with that id has the new status, every other
      id keeps its own. */
  lemma {:induction false} StatusOfAfterSet(orders: seq<Order>, id: int, status: string, other: int)
    ensures StatusOf(SetStatus(orders, id, status), id) == if HasId(orders, id) then Some(status) else None
    ensures other != id ==> StatusOf(SetStatus(orders, id, status), other) == StatusOf(orders, other)
  {
    if orders != [] {
      var r := SetStatus(orders, id, status);
      assert r[1..] == SetStatus(orders[1..], id, status);
      StatusOfAfterSet(orders[1..], id, status, other);
      if orders[0].orderId != id {
        assert HasId(orders, id) ==> HasId(orders[1..], id) by {
          if HasId(orders, id) {
            var k :| 0 <= k < |orders| && orders[k].orderId == id;
            assert orders[1..][k - 1] == orders[k];
          }
        }
      }
    }
  }

  /** Two updates of the same order: the later one wins. */
  lemma SetStatusLastWins(orders: seq<Order>, id: int, first: string, second: string)
    ensures SetStatus(SetStatus(orders, id, first), id, second) == SetStatus(orders, id, second)
  {
  }
}
