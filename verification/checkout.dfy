/**
 * Placing an order from the checkout page (pages/customer/Checkout.tsx): the two guards,
 * then the order payload built from the cart the menu page handed over. The order
 * service is a parameter that answers the new order's id or the server's error text.
 */
module Checkout {
  import opened Wrappers
  import opened CustomerCart

  /** What the menu page passes along when it navigates here. */
  datatype CheckoutState = CheckoutState(cart: Cart, vendorId: Option<int>)

  /** `location.state || { cart: [], vendorId: null, … }`. */
  function StateOrDefault(state: Option<CheckoutState>): (s: CheckoutState)
    ensures state == None ==> s.cart == [] && s.vendorId == None
    ensures state != None ==> s == state.value
  {
    if state == None then CheckoutState([], None) else state.value
  }


  /** One line of the order payload. */
  datatype OrderLine = OrderLine(menuItemId: int, quantity: int, notes: string)

  datatype OrderData = OrderData(
    vendorId: int, pickupTime: string, pickupOrDelivery: string, orderNotes: string,
    items: seq<OrderLine>)

  /** `${pickupDate}T${pickupTime}:00`. */
  function PickupTime(date: string, time: string): (r: string)
    ensures |r| == |date| + |time| + 4
    ensures r[..|date|] == date && r[|date|] == 'T' && r[|date| + 1..|date| + 1 + |time|] == time
  {
    date + "T" + time + ":00"
  }

  /** A date without a 'T' (as a date input gives) is recovered from the pickup time,
      and so is the time: different choices never give the same pickup time. */
  lemma PickupTimeInjective(d1: string, t1: string, d2: string, t2: string)
    requires forall i :: 0 <= i < |d1| ==> d1[i] != 'T'
    requires forall i :: 0 <= i < |d2| ==> d2[i] != 'T'
    requires PickupTime(d1, t1) == PickupTime(d2, t2)
    ensures d1 == d2 && t1 == t2
  {
    if |d1| < |d2| {
      assert false;
    } else if |d2| < |d1| {
      assert false;
    }
    assert |t1| == |t2|;
  }

  /**
   * `cart.map(item => ({ menu_item_id: item.id, quantity: item.quantity,
   * notes: item.notes || "" }))`: one line per cart entry, in cart order. Cart entries
   * built by the menu page carry no notes, so every line's notes are "".
   */
  function Lines(cart: Cart): (r: seq<OrderLine>)
    ensures |r| == |cart|
    ensures forall k :: 0 <= k < |cart| ==> r[k] == OrderLine(cart[k].item.id, cart[k].quantity, "")
  {
    if cart == [] then [] else [OrderLine(cart[0].item.id, cart[0].quantity, "")] + Lines(cart[1..])
  }

  function LineUnits(lines: seq<OrderLine>): int {
    if lines == [] then 0 else lines[0].quantity + LineUnits(lines[1..])
  }

  /** The payload orders exactly as many units as the cart badge counts. */
  lemma {:induction false} LinesCountUnits(cart: Cart)
    ensures LineUnits(Lines(cart)) == CartCount(cart)
  {
    if cart != [] {
      LinesCountUnits(cart[1..]);
      assert Lines(cart)[1..] == Lines(cart[1..]);
    }
  }

  /** How a click on "Place Order" ends. */
  datatype Placement =
    | Rejected(message: string)                      // a guard's error toast; nothing sent
    | Failed(order: OrderData, message: string)      // sent, and the service failed
    | Placed(order: OrderData, navigateTo: string)   // sent and created

  /**
   * `handlePlaceOrder`. Date and time are checked first, then the vendor id and the
   * cart; only then is the payload built and sent. The page moves to the orders list
   * only after the service answers with a created order. `createOrder` answers the
   * order id, or the server's error text when it sent one.
   */
  function PlaceOrder(state: Option<CheckoutState>, pickupDate: string, pickupTime: string,
                      orderNotes: string, createOrder: OrderData -> Result<int, Option<string>>): (p: Placement)
    ensures pickupDate == "" || pickupTime == "" ==> p == Rejected("Please select both pickup date and time")
    ensures pickupDate != "" && pickupTime != ""
            && (!Truthy(StateOrDefault(state).vendorId) || StateOrDefault(state).cart == []) ==>
              p == Rejected("Invalid cart data")
    ensures !p.Rejected? ==>
              var s := StateOrDefault(state);
              Truthy(s.vendorId) && s.cart != []
              && p.order == OrderData(s.vendorId.value, PickupTime(pickupDate, pickupTime), "pickup",
                                      orderNotes, Lines(s.cart))
    ensures p.Placed? <==> !p.Rejected? && createOrder(p.order).Success?
    ensures p.Placed? ==> p.navigateTo == "/customer/orders"
    ensures p.Failed? ==> p.message == createOrder(p.order).error.GetOr("Failed to place order")
  {
    var s := StateOrDefault(state);
    if pickupDate == "" || pickupTime == "" then Rejected("Please select both pickup date and time")
    else if !Truthy(s.vendorId) || s.cart == [] then Rejected("Invalid cart data")
    else
      var order := OrderData(s.vendorId.value, PickupTime(pickupDate, pickupTime), "pickup",
                             orderNotes, Lines(s.cart));
      match createOrder(order)
      case Success(_) => Placed(order, "/customer/orders")
      case Failure(e) => Failed(order, e.GetOr("Failed to place order"))
  }

  /** Without the menu page's state nothing is ever sent. */
  lemma NoStateNothingSent(pickupDate: string, pickupTime: string, orderNotes: string,
                           createOrder: OrderData -> Result<int, Option<string>>)
    ensures PlaceOrder(None, pickupDate, pickupTime, orderNotes, createOrder).Rejected?
  {
  }

  /** Whatever is sent is always a pickup order for the cart's vendor, with as many units
      as the cart counts. */
  lemma SentOrderMatchesCart(state: CheckoutState, pickupDate: string, pickupTime: string,
                             orderNotes: string, createOrder: OrderData -> Result<int, Option<string>>)
    requires !PlaceOrder(Some(state), pickupDate, pickupTime, orderNotes, createOrder).Rejected?
    ensures var o := PlaceOrder(Some(state), pickupDate, pickupTime, orderNotes, createOrder).order;
            o.pickupOrDelivery == "pickup" && Some(o.vendorId) == state.vendorId
            && |o.items| == |state.cart| && LineUnits(o.items) == CartCount(state.cart)
  {
    LinesCountUnits(state.cart);
  }
}
