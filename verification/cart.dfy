/**
 * The customer's cart on a vendor's menu page (pages/customer/VendorMenu.tsx). The cart
 * is an array of menu items each carrying a quantity; every operation builds a new
 * array and the page replaces its state with it. Prices are integer cents.
 */
module CustomerCart {
  import Models

  type Cents = Models.Cents

  /** A menu item as the page shows it (the fields the cart logic reads). */
  datatype MenuItem = MenuItem(id: int, name: string, price: Cents, available: bool)

  /** `{ ...item, quantity }`. */
  datatype CartEntry = CartEntry(item: MenuItem, quantity: int)

  type Cart = seq<CartEntry>

  /** The cart's invariant: no id twice, and every quantity at least 1. */
  predicate Valid(cart: Cart) {
    (forall i, j :: 0 <= i < j < |cart| ==> cart[i].item.id != cart[j].item.id)
    && (forall i :: 0 <= i < |cart| ==> cart[i].quantity >= 1)
  }

  /** `cart.find(i => i.id === id)` finds something. */
  predicate HasId(cart: Cart, id: int) {
    exists i :: 0 <= i < |cart| && cart[i].item.id == id
  }

  // ---------------------------------------------------------------- addToCart

  /** `cart.map(i => i.id === id ? { ...i, quantity: i.quantity + 1 } : i)`. */
  function Bump(cart: Cart, id: int): (r: Cart)
    ensures |r| == |cart|
  {
    if cart == [] then []
    else [if cart[0].item.id == id then cart[0].(quantity := cart[0].quantity + 1) else cart[0]]
         + Bump(cart[1..], id)
  }

  /**
   * `addToCart`: an item already in the cart has its entry's quantity raised by one
   * (the page maps over the cart, touching entries with that id); a new item is
   * appended with quantity 1.
   */
  function AddToCart(cart: Cart, item: MenuItem): (r: Cart)
    ensures !HasId(cart, item.id) ==> r == cart + [CartEntry(item, 1)]
    ensures HasId(cart, item.id) ==> |r| == |cart|
  {
    if HasId(cart, item.id) then Bump(cart, item.id) else cart + [CartEntry(item, 1)]
  }

  /** Bumping an id held only by entry `k` raises that entry alone. */
  lemma {:induction false} BumpOnly(cart: Cart, k: int)
    requires 0 <= k < |cart|
    requires forall j :: 0 <= j < |cart| && j != k ==> cart[j].item.id != cart[k].item.id
    ensures Bump(cart, cart[k].item.id) == cart[k := cart[k].(quantity := cart[k].quantity + 1)]
  {
    var id := cart[k].item.id;
    if k == 0 {
      BumpNone(cart[1..], id);
      assert cart == [cart[0]] + cart[1..];
    } else {
      var tail := cart[1..];
      forall j | 0 <= j < |tail| && j != k - 1 ensures tail[j].item.id != tail[k - 1].item.id {
        assert tail[j] == cart[j + 1];
      }
      BumpOnly(tail, k - 1);
      assert cart[k := cart[k].(quantity := cart[k].quantity + 1)]
          == [cart[0]] + tail[k - 1 := tail[k - 1].(quantity := tail[k - 1].quantity + 1)];
    }
  }

  /** Bumping an id nobody holds changes nothing. */
  lemma {:induction false} BumpNone(cart: Cart, id: int)
    requires forall j :: 0 <= j < |cart| ==> cart[j].item.id != id
    ensures Bump(cart, id) == cart
  {
    if cart != [] {
      BumpNone(cart[1..], id);
      assert cart == [cart[0]] + cart[1..];
    }
  }

  /** Adding an item that is already in a valid cart raises that one entry by exactly 1
      and leaves every other entry as it was. */
  lemma AddExisting(cart: Cart, item: MenuItem, k: int)
    requires Valid(cart) && 0 <= k < |cart| && cart[k].item.id == item.id
    ensures AddToCart(cart, item) == cart[k := cart[k].(quantity := cart[k].quantity + 1)]
  {
    assert HasId(cart, item.id);
    forall j | 0 <= j < |cart| && j != k ensures cart[j].item.id != cart[k].item.id {
      if j < k { assert cart[j].item.id != cart[k].item.id; }
      else { assert cart[k].item.id != cart[j].item.id; }
    }
    BumpOnly(cart, k);
  }

  /** The invariant holds after adding. */
  lemma AddKeepsValid(cart: Cart, item: MenuItem)
    requires Valid(cart)
    ensures Valid(AddToCart(cart, item))
  {
    if HasId(cart, item.id) {
      var k :| 0 <= k < |cart| && cart[k].item.id == item.id;
      AddExisting(cart, item, k);
    }
  }

  // ---------------------------------------------------------------- updateQuantity

  /**
   * `updateQuantity`: entries with the id get quantity + delta when that is positive
   * and are dropped otherwise; the other entries stay, in order.
   */
  function UpdateQuantity(cart: Cart, id: int, delta: int): (r: Cart)
    ensures |r| <= |cart|
  {
    if cart == [] then []
    else
      var e := cart[0];
      var here := if e.item.id != id then [e]
                  else if e.quantity + delta > 0 then [e.(quantity := e.quantity + delta)]
                  else [];
      here + UpdateQuantity(cart[1..], id, delta)
  }

  /** The entries whose id is not `id`, in order. */
  function Others(cart: Cart, id: int): (r: Cart)
    ensures forall i :: 0 <= i < |r| ==> r[i].item.id != id
  {
    if cart == [] then []
    else (if cart[0].item.id != id then [cart[0]] else []) + Others(cart[1..], id)
  }

  /** The entries with other ids, and their order, are untouched. */
  lemma {:induction false} UpdateQuantityOthers(cart: Cart, id: int, delta: int)
    ensures Others(UpdateQuantity(cart, id, delta), id) == Others(cart, id)
  {
    if cart != [] {
      UpdateQuantityOthers(cart[1..], id, delta);
      var e := cart[0];
      var here := if e.item.id != id then [e]
                  else if e.quantity + delta > 0 then [e.(quantity := e.quantity + delta)]
                  else [];
      var rest := UpdateQuantity(cart[1..], id, delta);
      assert UpdateQuantity(cart, id, delta) == here + rest;
      OthersAppend(here, rest, id);
    }
  }

  lemma {:induction false} OthersAppend(a: Cart, b: Cart, id: int)
    ensures Others(a + b, id) == Others(a, id) + Others(b, id)
  {
    if a != [] {
      assert (a + b)[1..] == a[1..] + b;
      OthersAppend(a[1..], b, id);
    } else {
      assert a + b == b;
    }
  }

  /** In a valid cart, the entry at `k` with that id is replaced in place by one with
      quantity + delta when that is positive, and removed otherwise. */
  lemma UpdateQuantityAt(cart: Cart, k: int, delta: int)
    requires Valid(cart) && 0 <= k < |cart|
    ensures var e := cart[k];
            UpdateQuantity(cart, e.item.id, delta)
            == if e.quantity + delta > 0 then cart[k := e.(quantity := e.quantity + delta)]
               else cart[..k] + cart[k + 1..]
  {
    if cart[k].quantity + delta > 0 {
      UpdateQuantityRaise(cart, k, delta);
    } else {
      UpdateQuantityDrop(cart, k, delta);
    }
  }

  lemma {:induction false} UpdateQuantityRaise(cart: Cart, k: int, delta: int)
    requires Valid(cart) && 0 <= k < |cart| && cart[k].quantity + delta > 0
    ensures UpdateQuantity(cart, cart[k].item.id, delta) == cart[k := cart[k].(quantity := cart[k].quantity + delta)]
  {
    var id := cart[k].item.id;
    var tail := cart[1..];
    ValidTail(cart);
    if k == 0 {
      UpdateQuantityAbsent(tail, id, delta);
      assert cart[0 := cart[0].(quantity := cart[0].quantity + delta)]
          == [cart[0].(quantity := cart[0].quantity + delta)] + tail;
    } else {
      assert tail[k - 1] == cart[k];
      UpdateQuantityRaise(tail, k - 1, delta);
      assert cart[k := cart[k].(quantity := cart[k].quantity + delta)]
          == [cart[0]] + tail[k - 1 := cart[k].(quantity := cart[k].quantity + delta)];
    }
  }

  lemma {:induction false} UpdateQuantityDrop(cart: Cart, k: int, delta: int)
    requires Valid(cart) && 0 <= k < |cart| && cart[k].quantity + delta <= 0
    ensures UpdateQuantity(cart, cart[k].item.id, delta) == cart[..k] + cart[k + 1..]
  {
    var id := cart[k].item.id;
    var tail := cart[1..];
    ValidTail(cart);
    if k == 0 {
      UpdateQuantityAbsent(tail, id, delta);
      assert cart[..0] + cart[1..] == tail;
    } else {
      assert tail[k - 1] == cart[k];
      UpdateQuantityDrop(tail, k - 1, delta);
      assert cart[..k] + cart[k + 1..] == [cart[0]] + (tail[..k - 1] + tail[k..]);
    }
  }

  /** The rest of a valid cart is valid and holds no entry with the first entry's id. */
  lemma ValidTail(cart: Cart)
    requires Valid(cart) && cart != []
    ensures Valid(cart[1..])
    ensures forall i :: 0 <= i < |cart| - 1 ==> cart[1..][i].item.id != cart[0].item.id
  {
    var tail := cart[1..];
    forall i, j | 0 <= i < j < |tail| ensures tail[i].item.id != tail[j].item.id {
      assert tail[i] == cart[i + 1] && tail[j] == cart[j + 1];
    }
    forall i | 0 <= i < |tail| ensures tail[i].item.id != cart[0].item.id {
      assert tail[i] == cart[i + 1];
    }
  }

  /** Nothing changes for an id that is not in the cart. */
  lemma {:induction false} UpdateQuantityAbsent(cart: Cart, id: int, delta: int)
    requires forall i :: 0 <= i < |cart| ==> cart[i].item.id != id
    ensures UpdateQuantity(cart, id, delta) == cart
  {
    if cart != [] {
      UpdateQuantityAbsent(cart[1..], id, delta);
      assert cart == [cart[0]] + cart[1..];
    }
  }

  /** The invariant holds after a quantity change. */
  lemma UpdateKeepsValid(cart: Cart, id: int, delta: int)
    requires Valid(cart)
    ensures Valid(UpdateQuantity(cart, id, delta))
  {
    if HasId(cart, id) {
      var k :| 0 <= k < |cart| && cart[k].item.id == id;
      UpdateQuantityAt(cart, k, delta);
      if cart[k].quantity + delta > 0 {
        ReplaceKeepsValid(cart, k, cart[k].(quantity := cart[k].quantity + delta));
      } else {
        RemoveKeepsValid(cart, k);
      }
    } else {
      UpdateQuantityAbsent(cart, id, delta);
    }
  }

  lemma ReplaceKeepsValid(cart: Cart, k: int, e: CartEntry)
    requires Valid(cart) && 0 <= k < |cart|
    requires e.item.id == cart[k].item.id && e.quantity >= 1
    ensures Valid(cart[k := e])
  {
  }

  lemma RemoveKeepsValid(cart: Cart, k: int)
    requires Valid(cart) && 0 <= k < |cart|
    ensures Valid(cart[..k] + cart[k + 1..])
  {
    var r := cart[..k] + cart[k + 1..];
    forall i, j | 0 <= i < j < |r| ensures r[i].item.id != r[j].item.id {
      var i' := if i < k then i else i + 1;
      var j' := if j < k then j else j + 1;
      assert r[i] == cart[i'] && r[j] == cart[j'];
    }
  }

  /** Pressing "+" then "−" (or adding then "−") on a valid cart gives the cart back. */
  lemma AddThenDecrement(cart: Cart, item: MenuItem)
    requires Valid(cart)
    ensures UpdateQuantity(AddToCart(cart, item), item.id, -1) == cart
  {
    if HasId(cart, item.id) {
      var k :| 0 <= k < |cart| && cart[k].item.id == item.id;
      AddExisting(cart, item, k);
      AddKeepsValid(cart, item);
      DecrementRaised(cart, AddToCart(cart, item), k);
    } else {
      AddKeepsValid(cart, item);
      DecrementAppended(cart, AddToCart(cart, item));
    }
  }

  /** Taking one unit off the entry that was just raised by one restores it. */
  lemma DecrementRaised(cart: Cart, added: Cart, k: int)
    requires Valid(added) && 0 <= k < |cart| && cart[k].quantity >= 1
    requires added == cart[k := cart[k].(quantity := cart[k].quantity + 1)]
    ensures UpdateQuantity(added, cart[k].item.id, -1) == cart
  {
    UpdateQuantityAt(added, k, -1);
    assert added[k := added[k].(quantity := added[k].quantity - 1)] == cart;
  }

  /** Taking one unit off a last entry that holds one drops it. */
  lemma DecrementAppended(cart: Cart, added: Cart)
    requires Valid(added) && |added| == |cart| + 1 && added[..|cart|] == cart && added[|cart|].quantity == 1
    ensures UpdateQuantity(added, added[|cart|].item.id, -1) == cart
  {
    UpdateQuantityAt(added, |cart|, -1);
    assert added[|cart| + 1..] == [];
  }

  // ---------------------------------------------------------------- totals

  /** `totalAmount`: Σ price × quantity. */
  function TotalAmount(cart: Cart): Cents {
    if cart == [] then 0 else cart[0].item.price * cart[0].quantity + TotalAmount(cart[1..])
  }

  /** `cartCount`: Σ quantity. */
  function CartCount(cart: Cart): int {
    if cart == [] then 0 else cart[0].quantity + CartCount(cart[1..])
  }

  /** A valid cart holds at least one unit per entry. */
  lemma {:induction false} CountAtLeastEntries(cart: Cart)
    requires forall i :: 0 <= i < |cart| ==> cart[i].quantity >= 1
    ensures CartCount(cart) >= |cart|
  {
    if cart != [] {
      CountAtLeastEntries(cart[1..]);
    }
  }

  lemma {:induction false} TotalsAppend(a: Cart, b: Cart)
    ensures CartCount(a + b) == CartCount(a) + CartCount(b)
    ensures TotalAmount(a + b) == TotalAmount(a) + TotalAmount(b)
  {
    if a != [] {
      assert (a + b)[1..] == a[1..] + b;
      TotalsAppend(a[1..], b);
    } else {
      assert a + b == b;
    }
  }

  lemma {:induction false} TotalsUpdate(cart: Cart, k: int, e: CartEntry)
    requires 0 <= k < |cart|
    ensures CartCount(cart[k := e]) == CartCount(cart) - cart[k].quantity + e.quantity
    ensures TotalAmount(cart[k := e]) == TotalAmount(cart) - cart[k].item.price * cart[k].quantity
                                         + e.item.price * e.quantity
  {
    if k > 0 {
      assert cart[k := e][1..] == cart[1..][k - 1 := e];
      TotalsUpdate(cart[1..], k - 1, e);
    }
  }

  /** Adding an item already in a valid cart raises the count by exactly one and the
      total by the unit price recorded in the cart. */
  lemma AddExistingTotals(cart: Cart, item: MenuItem, k: int)
    requires Valid(cart) && 0 <= k < |cart| && cart[k].item.id == item.id
    ensures CartCount(AddToCart(cart, item)) == CartCount(cart) + 1
    ensures TotalAmount(AddToCart(cart, item)) == TotalAmount(cart) + cart[k].item.price
  {
    AddExisting(cart, item, k);
    RaiseOneTotals(cart, AddToCart(cart, item), k);
  }

  /** Raising entry `k` by one unit adds one to the count and its price to the total. */
  lemma RaiseOneTotals(cart: Cart, r: Cart, k: int)
    requires 0 <= k < |cart| && r == cart[k := cart[k].(quantity := cart[k].quantity + 1)]
    ensures CartCount(r) == CartCount(cart) + 1
    ensures TotalAmount(r) == TotalAmount(cart) + cart[k].item.price
  {
    TotalsUpdate(cart, k, r[k]);
    MulSucc(cart[k].item.price, cart[k].quantity);
  }

  lemma MulSucc(p: int, q: int)
    ensures p * (q + 1) == p * q + p
  {
  }

  /** Adding a new item raises the count by one and the total by its price. */
  lemma AddNewTotals(cart: Cart, item: MenuItem)
    requires !HasId(cart, item.id)
    ensures CartCount(AddToCart(cart, item)) == CartCount(cart) + 1
    ensures TotalAmount(AddToCart(cart, item)) == TotalAmount(cart) + item.price
  {
    TotalsAppend(cart, [CartEntry(item, 1)]);
  }

  /** Every add to a valid cart counts exactly one more unit. */
  lemma AddToCartCount(cart: Cart, item: MenuItem)
    requires Valid(cart)
    ensures CartCount(AddToCart(cart, item)) == CartCount(cart) + 1
  {
    if HasId(cart, item.id) {
      var k :| 0 <= k < |cart| && cart[k].item.id == item.id;
      AddExistingTotals(cart, item, k);
    } else {
      AddNewTotals(cart, item);
    }
  }

  // ---------------------------------------------------------------- availability gate

  /** What an item card offers: an "Add to Cart" button, or an "Out of Stock" badge. */
  datatype CardAction = AddButton | OutOfStock

  function CardActionFor(item: MenuItem): (a: CardAction)
    ensures a == AddButton <==> item.available
  {
    if item.available then AddButton else OutOfStock
  }

  /** Clicking on an item's card: only the button adds. */
  function ClickCard(cart: Cart, item: MenuItem): (r: Cart)
    ensures !item.available ==> r == cart
    ensures item.available ==> r == AddToCart(cart, item)
  {
    match CardActionFor(item)
    case AddButton => AddToCart(cart, item)
    case OutOfStock => cart
  }

  /** Every entry of the cart was added through an available item's button. */
  predicate AllAvailable(cart: Cart) {
    forall i :: 0 <= i < |cart| ==> cart[i].item.available
  }

  /** Clicks and quantity changes never bring an unavailable item into the cart. */
  lemma OnlyAvailableItemsEnter(cart: Cart, item: MenuItem, id: int, delta: int)
    requires AllAvailable(cart)
    ensures AllAvailable(ClickCard(cart, item))
    ensures AllAvailable(UpdateQuantity(cart, id, delta))
  {
    UpdateKeepsAvailable(cart, id, delta);
    if item.available {
      AddKeepsAvailable(cart, item);
    }
  }

  lemma {:induction false} AddKeepsAvailable(cart: Cart, item: MenuItem)
    requires AllAvailable(cart) && item.available
    ensures AllAvailable(AddToCart(cart, item))
  {
    if HasId(cart, item.id) {
      BumpKeepsAvailable(cart, item.id);
    }
  }

  lemma {:induction false} BumpKeepsAvailable(cart: Cart, id: int)
    requires AllAvailable(cart)
    ensures AllAvailable(Bump(cart, id))
  {
    if cart != [] {
      BumpKeepsAvailable(cart[1..], id);
    }
  }

  lemma {:induction false} UpdateKeepsAvailable(cart: Cart, id: int, delta: int)
    requires AllAvailable(cart)
    ensures AllAvailable(UpdateQuantity(cart, id, delta))
  {
    if cart != [] {
      UpdateKeepsAvailable(cart[1..], id, delta);
    }
  }
}
