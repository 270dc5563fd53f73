/**
 * The persistent records of the marketplace (backend/models.py): vendors, menus,
 * menu items, orders and their line items, with the column defaults the ORM fills
 * in, the unique keys the schema enforces and the `to_dict` projections the API
 * returns. Money columns (`Numeric(…, 2)`) are whole cents; timestamps are opaque
 * instants. A user account is the one record the code updates in place (login
 * stamps `last_login`), so it is a class; everything else is a value.
 */
module Models {
  import opened Wrappers

  /** A `Numeric(…, 2)` amount, in cents. */
  type Cents = int

  /** A `DateTime` column value. */
  type Timestamp = int

  // ---------------------------------------------------------------- users

  /** What `User.to_dict` reports. */
  datatype UserDict = UserDict(
    id: int, email: string, role: string, fullName: string, phone: string,
    isEmailVerified: bool, createdAt: Option<Timestamp>)

  class User {
    const id: int
    var email: string
    var passwordHash: string
    var role: string
    var fullName: string
    var phone: string
    var isEmailVerified: bool
    var createdAt: Option<Timestamp>
    var lastLogin: Option<Timestamp>

    /** A new account: not yet email-verified and never logged in. */
    constructor (id: int, email: string, passwordHash: string, role: string,
                 fullName: string, phone: string, now: Timestamp)
      ensures this.id == id && this.email == email && this.passwordHash == passwordHash
      ensures this.role == role && this.fullName == fullName && this.phone == phone
      ensures !isEmailVerified && createdAt == Some(now) && lastLogin == None
    {
      this.id := id;
      this.email := email;
      this.passwordHash := passwordHash;
      this.role := role;
      this.fullName := fullName;
      this.phone := phone;
      isEmailVerified := false;
      createdAt := Some(now);
      lastLogin := None;
    }

    /** The public projection: everything except the password hash and last login. */
    function ToDict(): (d: UserDict)
      reads this
      ensures d.id == id && d.email == email && d.role == role
      ensures d.fullName == fullName && d.phone == phone
      ensures d.isEmailVerified == isEmailVerified && d.createdAt == createdAt
    {
      UserDict(id, email, role, fullName, phone, isEmailVerified, createdAt)
    }
  }

  // ---------------------------------------------------------------- records

  datatype MenuItem = MenuItem(
    id: int, menuId: int, vendorId: int, name: string, description: Option<string>,
    price: Cents, available: bool, preparationTimeMinutes: int, imageUrl: Option<string>,
    createdAt: Timestamp)

  datatype Menu = Menu(
    id: int, vendorId: int, title: string, isActive: bool, createdAt: Timestamp,
    menuItems: seq<MenuItem>)

  datatype Vendor = Vendor(
    id: int, userId: int, vendorName: string, location: Option<string>,
    pickupAvailable: bool, deliveryAvailable: bool, createdAt: Timestamp,
    menu: Option<Menu>)

  datatype OrderItem = OrderItem(
    id: int, orderId: int, menuItemId: Option<int>, nameSnapshot: string,
    priceSnapshot: Cents, quantity: int, notes: Option<string>)

  datatype Order = Order(
    id: int, customerId: Option<int>, vendorId: int, placedAt: Timestamp,
    scheduledFor: Timestamp, totalAmount: Cents, status: string, paymentStatus: string,
    pickupOrDelivery: string, notes: Option<string>, estimatedReadyAt: Option<Timestamp>,
    createdAt: Timestamp, orderItems: seq<OrderItem>)

  // ---------------------------------------------------------------- defaults

  /** A vendor row as the ORM builds it; an omitted flag takes its column default. */
  function NewVendor(id: int, userId: int, vendorName: string, location: Option<string>,
                     pickupAvailable: Option<bool>, deliveryAvailable: Option<bool>,
                     now: Timestamp): (v: Vendor)
    ensures v.id == id && v.userId == userId && v.vendorName == vendorName && v.location == location
    ensures pickupAvailable == None ==> v.pickupAvailable
    ensures deliveryAvailable == None ==> !v.deliveryAvailable
    ensures pickupAvailable != None ==> v.pickupAvailable == pickupAvailable.value
    ensures deliveryAvailable != None ==> v.deliveryAvailable == deliveryAvailable.value
    ensures v.createdAt == now && v.menu == None
  {
    Vendor(id, userId, vendorName, location, pickupAvailable.GetOr(true),
           deliveryAvailable.GetOr(false), now, None)
  }

  /** A menu row; an omitted `is_active` makes the menu active. */
  function NewMenu(id: int, vendorId: int, title: string, isActive: Option<bool>, now: Timestamp): (m: Menu)
    ensures m.id == id && m.vendorId == vendorId && m.title == title
    ensures isActive == None ==> m.isActive
    ensures isActive != None ==> m.isActive == isActive.value
    ensures m.createdAt == now && m.menuItems == []
  {
    Menu(id, vendorId, title, isActive.GetOr(true), now, [])
  }

  /** A menu item row; an omitted item is available and takes 15 minutes to prepare. */
  function NewMenuItem(id: int, menuId: int, vendorId: int, name: string, description: Option<string>,
                       price: Cents, available: Option<bool>, preparationTimeMinutes: Option<int>,
                       imageUrl: Option<string>, now: Timestamp): (mi: MenuItem)
    ensures mi.id == id && mi.menuId == menuId && mi.vendorId == vendorId
    ensures mi.name == name && mi.description == description && mi.price == price
    ensures available == None ==> mi.available
    ensures available != None ==> mi.available == available.value
    ensures preparationTimeMinutes == None ==> mi.preparationTimeMinutes == 15
    ensures preparationTimeMinutes != None ==> mi.preparationTimeMinutes == preparationTimeMinutes.value
    ensures mi.imageUrl == imageUrl && mi.createdAt == now
  {
    MenuItem(id, menuId, vendorId, name, description, price, available.GetOr(true),
             preparationTimeMinutes.GetOr(15), imageUrl, now)
  }

  /** An order row; omitted status columns start at 'pending' and fulfilment at 'pickup'. */
  function NewOrder(id: int, customerId: Option<int>, vendorId: int, scheduledFor: Timestamp,
                    totalAmount: Cents, status: Option<string>, paymentStatus: Option<string>,
                    pickupOrDelivery: Option<string>, notes: Option<string>, now: Timestamp): (o: Order)
    ensures o.id == id && o.customerId == customerId && o.vendorId == vendorId
    ensures o.scheduledFor == scheduledFor && o.totalAmount == totalAmount && o.notes == notes
    ensures status == None ==> o.status == "pending"
    ensures paymentStatus == None ==> o.paymentStatus == "pending"
    ensures pickupOrDelivery == None ==> o.pickupOrDelivery == "pickup"
    ensures status != None ==> o.status == status.value
    ensures paymentStatus != None ==> o.paymentStatus == paymentStatus.value
    ensures pickupOrDelivery != None ==> o.pickupOrDelivery == pickupOrDelivery.value
    ensures o.placedAt == now && o.createdAt == now
    ensures o.estimatedReadyAt == None && o.orderItems == []
  {
    Order(id, customerId, vendorId, now, scheduledFor, totalAmount, status.GetOr("pending"),
          paymentStatus.GetOr("pending"), pickupOrDelivery.GetOr("pickup"), notes, None, now, [])
  }

  /** An order line. The two snapshots are NOT NULL columns, so a line without either
      is refused; an omitted quantity is 1. */
  function NewOrderItem(id: int, orderId: int, menuItemId: Option<int>, nameSnapshot: Option<string>,
                        priceSnapshot: Option<Cents>, quantity: Option<int>,
                        notes: Option<string>): (r: Result<OrderItem, string>)
    ensures r.Success? <==> nameSnapshot != None && priceSnapshot != None
    ensures r.Success? ==> r.value.nameSnapshot == nameSnapshot.value
    ensures r.Success? ==> r.value.priceSnapshot == priceSnapshot.value
    ensures r.Success? && quantity == None ==> r.value.quantity == 1
    ensures r.Success? && quantity != None ==> r.value.quantity == quantity.value
    ensures r.Success? ==> r.value.id == id && r.value.orderId == orderId
    ensures r.Success? ==> r.value.menuItemId == menuItemId && r.value.notes == notes
  {
    if nameSnapshot == None then Failure("name_snapshot violates not-null constraint")
    else if priceSnapshot == None then Failure("price_snapshot violates not-null constraint")
    else Success(OrderItem(id, orderId, menuItemId, nameSnapshot.value, priceSnapshot.value,
                           quantity.GetOr(1), notes))
  }

  // ---------------------------------------------------------------- unique keys

  /** No two rows share a key. */
  predicate UniqueKeys<T>(rows: seq<T>, key: T -> int) {
    forall i, j :: 0 <= i < j < |rows| ==> key(rows[i]) != key(rows[j])
  }

  /** Inserting under a unique constraint: refused when the key is taken, appended otherwise. */
  function InsertUnique<T>(rows: seq<T>, row: T, key: T -> int): (r: Result<seq<T>, string>)
    ensures r.Success? <==> forall i :: 0 <= i < |rows| ==> key(rows[i]) != key(row)
    ensures r.Success? ==> r.value == rows + [row]
  {
    if exists i :: 0 <= i < |rows| && key(rows[i]) == key(row)
    then Failure("duplicate key value violates unique constraint")
    else Success(rows + [row])
  }

  /** A successful insert keeps the key unique. */
  lemma InsertUniqueKeeps<T>(rows: seq<T>, row: T, key: T -> int)
    requires UniqueKeys(rows, key)
    requires InsertUnique(rows, row, key).Success?
    ensures UniqueKeys(InsertUnique(rows, row, key).value, key)
  {
    var r := rows + [row];
    forall i, j | 0 <= i < j < |r| ensures key(r[i]) != key(r[j]) {
      if j < |rows| { assert r[i] == rows[i] && r[j] == rows[j]; }
      else { assert r[i] == rows[i] && r[j] == row; }
    }
  }

  function VendorUser(v: Vendor): int { v.userId }
  function MenuVendor(m: Menu): int { m.vendorId }

  /** `vendors.user_id` is unique: inserting a second vendor profile for a user fails. */
  function InsertVendor(vendors: seq<Vendor>, v: Vendor): (r: Result<seq<Vendor>, string>)
    ensures r.Success? <==> forall i :: 0 <= i < |vendors| ==> vendors[i].userId != v.userId
    ensures UniqueKeys(vendors, VendorUser) && r.Success? ==> UniqueKeys(r.value, VendorUser)
  {
    var r := InsertUnique(vendors, v, VendorUser);
    if UniqueKeys(vendors, VendorUser) && r.Success? then InsertUniqueKeeps(vendors, v, VendorUser); r
    else r
  }

  /** `menus.vendor_id` is unique: a vendor has at most one menu. */
  function InsertMenu(menus: seq<Menu>, m: Menu): (r: Result<seq<Menu>, string>)
    ensures r.Success? <==> forall i :: 0 <= i < |menus| ==> menus[i].vendorId != m.vendorId
    ensures UniqueKeys(menus, MenuVendor) && r.Success? ==> UniqueKeys(r.value, MenuVendor)
  {
    var r := InsertUnique(menus, m, MenuVendor);
    if UniqueKeys(menus, MenuVendor) && r.Success? then InsertUniqueKeeps(menus, m, MenuVendor); r
    else r
  }

  // ---------------------------------------------------------------- to_dict

  datatype MenuItemDict = MenuItemDict(
    id: int, name: string, description: Option<string>, price: Cents, available: bool,
    preparationTimeMinutes: int, imageUrl: Option<string>)

  datatype MenuDict = MenuDict(id: int, title: string, isActive: bool, items: seq<MenuItemDict>)

  datatype VendorDict = VendorDict(
    id: int, vendorName: string, location: Option<string>, pickupAvailable: bool,
    deliveryAvailable: bool, menu: Option<MenuDict>)

  datatype OrderItemDict = OrderItemDict(id: int, name: string, price: Cents, quantity: int, notes: Option<string>)

  datatype OrderDict = OrderDict(
    id: int, customerId: Option<int>, vendorId: int, placedAt: Timestamp, scheduledFor: Timestamp,
    totalAmount: Cents, status: string, paymentStatus: string, pickupOrDelivery: string,
    notes: Option<string>, items: seq<OrderItemDict>)

  /** `MenuItem.to_dict`: the item's public columns (no menu, vendor or timestamp). */
  function MenuItemToDict(mi: MenuItem): (d: MenuItemDict)
    ensures d.id == mi.id && d.name == mi.name && d.description == mi.description
    ensures d.price == mi.price && d.available == mi.available
    ensures d.preparationTimeMinutes == mi.preparationTimeMinutes && d.imageUrl == mi.imageUrl
  {
    MenuItemDict(mi.id, mi.name, mi.description, mi.price, mi.available,
                 mi.preparationTimeMinutes, mi.imageUrl)
  }

  function MenuItemsToDicts(items: seq<MenuItem>): (ds: seq<MenuItemDict>)
    ensures |ds| == |items|
    ensures forall i :: 0 <= i < |items| ==> ds[i] == MenuItemToDict(items[i])
  {
    if items == [] then [] else [MenuItemToDict(items[0])] + MenuItemsToDicts(items[1..])
  }

  /** `Menu.to_dict`: one item dict per menu item, in the menu's order. */
  function MenuToDict(m: Menu): (d: MenuDict)
    ensures d.id == m.id && d.title == m.title && d.isActive == m.isActive
    ensures |d.items| == |m.menuItems|
    ensures forall i :: 0 <= i < |m.menuItems| ==> d.items[i] == MenuItemToDict(m.menuItems[i])
  {
    MenuDict(m.id, m.title, m.isActive, MenuItemsToDicts(m.menuItems))
  }

  /** `Vendor.to_dict`: the vendor's columns and its menu, or None when it has none. */
  function VendorToDict(v: Vendor): (d: VendorDict)
    ensures d.id == v.id && d.vendorName == v.vendorName && d.location == v.location
    ensures d.pickupAvailable == v.pickupAvailable && d.deliveryAvailable == v.deliveryAvailable
    ensures d.menu == None <==> v.menu == None
    ensures v.menu != None ==> d.menu == Some(MenuToDict(v.menu.value))
  {
    VendorDict(v.id, v.vendorName, v.location, v.pickupAvailable, v.deliveryAvailable,
               if v.menu == None then None else Some(MenuToDict(v.menu.value)))
  }

  /** `OrderItem.to_dict`: name and price come from the snapshots taken at ordering time;
      the line does not consult the menu item it once referred to. */
  function OrderItemToDict(oi: OrderItem): (d: OrderItemDict)
    ensures d.name == oi.nameSnapshot && d.price == oi.priceSnapshot
    ensures d.id == oi.id && d.quantity == oi.quantity && d.notes == oi.notes
  {
    OrderItemDict(oi.id, oi.nameSnapshot, oi.priceSnapshot, oi.quantity, oi.notes)
  }

  function OrderItemsToDicts(items: seq<OrderItem>): (ds: seq<OrderItemDict>)
    ensures |ds| == |items|
    ensures forall i :: 0 <= i < |items| ==> ds[i] == OrderItemToDict(items[i])
  {
    if items == [] then [] else [OrderItemToDict(items[0])] + OrderItemsToDicts(items[1..])
  }

  /** `Order.to_dict`: the order's columns and exactly one dict per line item, in order. */
  function OrderToDict(o: Order): (d: OrderDict)
    ensures d.id == o.id && d.customerId == o.customerId && d.vendorId == o.vendorId
    ensures d.placedAt == o.placedAt && d.scheduledFor == o.scheduledFor
    ensures d.totalAmount == o.totalAmount && d.status == o.status
    ensures d.paymentStatus == o.paymentStatus && d.pickupOrDelivery == o.pickupOrDelivery
    ensures d.notes == o.notes
    ensures |d.items| == |o.orderItems|
    ensures forall i :: 0 <= i < |o.orderItems| ==> d.items[i] == OrderItemToDict(o.orderItems[i])
  {
    OrderDict(o.id, o.customerId, o.vendorId, o.placedAt, o.scheduledFor, o.totalAmount,
              o.status, o.paymentStatus, o.pickupOrDelivery, o.notes, OrderItemsToDicts(o.orderItems))
  }

  /** Sum of price × quantity over the projected lines. */
  function LinesTotal(items: seq<OrderItemDict>): Cents {
    if items == [] then 0 else items[0].price * items[0].quantity + LinesTotal(items[1..])
  }

  /** Snapshot isolation of history: a line keeps its own name and price, so losing or
      changing the menu item it refers to (`menu_item_id` is set to NULL when that item
      is deleted) leaves the order's projection, and every displayed line total, as it was. */
  lemma {:induction false} OrderDictIgnoresMenuItemLink(o: Order, relinked: seq<OrderItem>)
    requires |relinked| == |o.orderItems|
    requires forall i :: 0 <= i < |relinked| ==>
      relinked[i] == o.orderItems[i].(menuItemId := relinked[i].menuItemId)
    ensures OrderToDict(o.(orderItems := relinked)) == OrderToDict(o)
    ensures LinesTotal(OrderToDict(o.(orderItems := relinked)).items) == LinesTotal(OrderToDict(o).items)
  {
    var a := OrderToDict(o.(orderItems := relinked)).items;
    var b := OrderToDict(o).items;
    assert |a| == |b|;
    forall i | 0 <= i < |a| ensures a[i] == b[i] {
      assert OrderItemToDict(relinked[i]) == OrderItemToDict(o.orderItems[i]);
    }
    assert a == b;
  }
}
