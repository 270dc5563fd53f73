/**
 * The vendor's menu page (pages/vendor/Menu.tsx): the item list it holds, the add-item
 * form and its payload, and the three list updates it makes after the server accepts
 * (append, availability toggle, removal), plus the grouping it renders the list by.
 * The menu and item services are parameters; a price is parsed by a parameter too,
 * since `parseFloat` yields a floating-point number.
 */
module VendorMenu {
  import opened Wrappers
  import opened Services
  import opened Text
  import opened Sequences

  /** An item as the page holds it; prices are in the smallest currency unit. */
  datatype MenuItem = MenuItem(
    id: int, name: string, price: int, description: string, available: bool,
    prepMinutes: int, imageUrl: Option<string>)

  /** The add-item dialog's fields, all text as typed. */
  datatype ItemForm = ItemForm(
    name: string, price: string, description: string, category: string,
    prepMinutes: string, imageUrl: string)

  /** The form as first shown and as reset after an add: everything empty but the
      preparation time, which reads "15". */
  const EmptyForm := ItemForm("", "", "", "", "15", "")


  // ---------------------------------------------------------------- toggle and remove

  /**
   * `menuItems.map(i => i.id === id ? { ...i, available: !i.available } : i)`: every
   * entry with that id has its availability flipped; nothing else changes.
   */
  function ToggleAvailable(items: seq<MenuItem>, id: int): (r: seq<MenuItem>)
    ensures |r| == |items|
    ensures forall k :: 0 <= k < |items| && items[k].id == id ==>
              r[k] == items[k].(available := !items[k].available)
    ensures forall k :: 0 <= k < |items| && items[k].id != id ==> r[k] == items[k]
  {
    if items == [] then []
    else
      var head := if items[0].id == id then items[0].(available := !items[0].available) else items[0];
      [head] + ToggleAvailable(items[1..], id)
  }

  /** Toggling twice restores the list. */
  lemma ToggleTwice(items: seq<MenuItem>, id: int)
    ensures ToggleAvailable(ToggleAvailable(items, id), id) == items
  {
  }

  /**
   * `toggleAvailability`: without a vendor id or a loaded menu nothing is sent. The list
   * changes only once the server accepts; a refusal keeps it and shows the server's
   * message or "Failed to update item".
   */
  function ToggleAvailability(items: seq<MenuItem>, vendorId: Option<int>, menuId: Option<int>,
                              item: MenuItem, reply: Reply): (r: (seq<MenuItem>, Option<string>))
    ensures !Truthy(vendorId) || menuId == None ==> r == (items, None)
    ensures Truthy(vendorId) && menuId != None && reply.Done? ==> r == (ToggleAvailable(items, item.id), None)
    ensures Truthy(vendorId) && menuId != None && reply.Refused? ==>
              r == (items, Some(reply.message.GetOr("Failed to update item")))
  {
    if !Truthy(vendorId) || menuId == None then (items, None)
    else match reply
      case Done => (ToggleAvailable(items, item.id), None)
      case Refused(m) => (items, Some(m.GetOr("Failed to update item")))
  }

  /** `menuItems.filter(i => i.id !== id)`. */
  function RemoveItem(items: seq<MenuItem>, id: int): (r: seq<MenuItem>)
    ensures forall x :: x in r <==> x in items && x.id != id
    ensures Subsequence(r, items)
  {
    if items == [] then []
    else
      var rest := RemoveItem(items[1..], id);
      assert forall x :: x in items <==> x == items[0] || x in items[1..];
      if items[0].id != id then [items[0]] + rest
      else
        assert rest != [] ==> rest[0] in rest && rest[0] != items[0];
        rest
  }

  /** Removing an item just appended with a fresh id gives back the list before. */
  lemma {:induction false} RemoveUndoesAppend(items: seq<MenuItem>, item: MenuItem)
    requires forall k :: 0 <= k < |items| ==> items[k].id != item.id
    ensures RemoveItem(items + [item], item.id) == items
  {
    if items == [] {
      assert RemoveItem([item], item.id) == [];
    } else {
      assert (items + [item])[1..] == items[1..] + [item];
      RemoveUndoesAppend(items[1..], item);
    }
  }

  /**
   * `handleRemoveItem`: without a vendor id or a loaded menu nothing is sent. The item
   * leaves the list only once the server accepts; a refusal keeps the list and shows the
   * server's message or "Failed to delete item".
   */
  function HandleRemoveItem(items: seq<MenuItem>, vendorId: Option<int>, menuId: Option<int>,
                            item: MenuItem, reply: Reply): (r: (seq<MenuItem>, Option<string>))
    ensures !Truthy(vendorId) || menuId == None ==> r == (items, None)
    ensures Truthy(vendorId) && menuId != None && reply.Done? ==> r == (RemoveItem(items, item.id), None)
    ensures Truthy(vendorId) && menuId != None && reply.Refused? ==>
              r == (items, Some(reply.message.GetOr("Failed to delete item")))
  {
    if !Truthy(vendorId) || menuId == None then (items, None)
    else match reply
      case Done => (RemoveItem(items, item.id), None)
      case Refused(m) => (items, Some(m.GetOr("Failed to delete item")))
  }

  // ---------------------------------------------------------------- adding an item

  /** `parseInt(text) || 15`: NaN and 0 fall back to fifteen minutes. */
  function PrepMinutes(text: string): (m: int)
    ensures m != 0
    ensures ParseInt(text) == None || ParseInt(text) == Some(0) ==> m == 15
    ensures ParseInt(text) != None && ParseInt(text) != Some(0) ==> m == ParseInt(text).value
  {
    match ParseInt(text)
    case None => 15
    case Some(n) => if n == 0 then 15 else n
  }

  /** A typed positive number of minutes is kept, and an empty field gives fifteen. */
  lemma PrepMinutesOfNumeral(n: nat)
    ensures n != 0 ==> PrepMinutes(DecimalString(n)) == n
    ensures PrepMinutes("") == 15 && PrepMinutes(EmptyForm.prepMinutes) == 15
  {
    ParseIntRoundTrip(n);
    var fifteen := EmptyForm.prepMinutes;
    assert IsDigit(fifteen[0]) && IsDigit(fifteen[1]);
    DigitPrefixOfDigits(fifteen);
    assert fifteen[..1] == "1" && DecimalValue("1") == 1;
    assert ParseInt(fifteen) == Some(15);
  }

  /** The item sent to the server. */
  datatype ItemData = ItemData(
    name: string, price: int, description: string, prepMinutes: int,
    imageUrl: Option<string>, available: bool)

  /** `itemData`: a new item is always sent as available, and an empty image URL as null. */
  function ItemDataOf(form: ItemForm, parsePrice: string -> int): (d: ItemData)
    ensures d.available
    ensures d.name == form.name && d.description == form.description && d.price == parsePrice(form.price)
    ensures d.imageUrl == None <==> form.imageUrl == ""
    ensures d.imageUrl != None ==> d.imageUrl.value == form.imageUrl
    ensures d.prepMinutes == PrepMinutes(form.prepMinutes)
  {
    ItemData(form.name, parsePrice(form.price), form.description, PrepMinutes(form.prepMinutes),
             if form.imageUrl == "" then None else Some(form.imageUrl), true)
  }

  /**
   * `ensureMenuExists`: the loaded menu's id when there is one, without asking the
   * server; otherwise, with a vendor id, a new menu titled "Main Menu" is created and
   * becomes the page's menu. `createMenu` answers the new menu's id.
   * The answer carries the page's menu afterwards; Failure carries the error's text.
   */
  function EnsureMenuExists(menuId: Option<int>, vendorId: Option<int>,
                            createMenu: (int, string) -> Result<int, Option<string>>): (r: Result<int, string>)
    ensures menuId != None ==> r == Success(menuId.value)
    ensures menuId == None && Truthy(vendorId) ==>
              match createMenu(vendorId.value, "Main Menu")
              case Success(id) => r == Success(id)
              case Failure(e) => r == Failure(e.GetOr("Failed to create menu"))
    ensures menuId == None && !Truthy(vendorId) ==> r.Failure?
  {
    if menuId == None && Truthy(vendorId) then
      match createMenu(vendorId.value, "Main Menu")
      case Success(id) => Success(id)
      case Failure(e) => Failure(e.GetOr("Failed to create menu"))
    else if menuId != None then Success(menuId.value)
    else Failure("menu is null")
  }

  /** The page after "Add Item". */
  datatype AddOutcome = AddOutcome(
    items: seq<MenuItem>, form: ItemForm, menuId: Option<int>, sent: Option<ItemData>,
    error: Option<string>)

  /**
   * `handleAddItem`. An empty name or price is refused first, then a missing vendor id,
   * both before any request. Then the menu is made sure of and the item sent; when the
   * server answers with at least one item, the first one is appended and the form reset.
   * Any thrown error, including a failed menu creation, shows the server's message when
   * the error carries a response, or "Failed to add item".
   */
  function HandleAddItem(items: seq<MenuItem>, form: ItemForm, vendorId: Option<int>, menuId: Option<int>,
                         createMenu: (int, string) -> Result<int, Option<string>>,
                         addItems: (int, int, seq<ItemData>) -> Result<seq<MenuItem>, Option<string>>,
                         parsePrice: string -> int): (r: AddOutcome)
    ensures form.name == "" || form.price == "" ==>
              r == AddOutcome(items, form, menuId, None, Some("Please fill in all required fields"))
    ensures form.name != "" && form.price != "" && !Truthy(vendorId) ==>
              r == AddOutcome(items, form, menuId, None, Some("Vendor ID not found"))
    ensures r.sent != None ==> r.sent.value == ItemDataOf(form, parsePrice) && r.menuId != None
    ensures r.error == None && r.items != items ==>
              r.sent != None && r.form == EmptyForm && |r.items| == |items| + 1 && r.items[..|items|] == items
    ensures r.error == None && r.sent != None && r.items == items ==> r.form == form
    ensures menuId != None ==> r.menuId == menuId
  {
    if form.name == "" || form.price == "" then
      AddOutcome(items, form, menuId, None, Some("Please fill in all required fields"))
    else if !Truthy(vendorId) then
      AddOutcome(items, form, menuId, None, Some("Vendor ID not found"))
    else
      match EnsureMenuExists(menuId, vendorId, createMenu)
      case Failure(_) => AddOutcome(items, form, menuId, None, Some("Failed to add item"))
      case Success(id) =>
        var data := ItemDataOf(form, parsePrice);
        match addItems(vendorId.value, id, [data])
        case Failure(e) => AddOutcome(items, form, Some(id), Some(data), Some(e.GetOr("Failed to add item")))
        case Success(created) =>
          if |created| > 0 then AddOutcome(items + [created[0]], EmptyForm, Some(id), Some(data), None)
          else AddOutcome(items, form, Some(id), Some(data), None)
  }

  /** An add the server answers with items appends exactly its first item at the end
      and leaves the form empty again, ready with fifteen minutes. */
  lemma AddAppendsFirstCreated(items: seq<MenuItem>, form: ItemForm, vendorId: int, menuId: int,
                               createMenu: (int, string) -> Result<int, Option<string>>,
                               addItems: (int, int, seq<ItemData>) -> Result<seq<MenuItem>, Option<string>>,
                               parsePrice: string -> int)
    requires form.name != "" && form.price != "" && vendorId != 0
    requires addItems(vendorId, menuId, [ItemDataOf(form, parsePrice)]).Success?
    requires |addItems(vendorId, menuId, [ItemDataOf(form, parsePrice)]).value| > 0
    ensures var r := HandleAddItem(items, form, Some(vendorId), Some(menuId), createMenu, addItems, parsePrice);
            r.items == items + [addItems(vendorId, menuId, [ItemDataOf(form, parsePrice)]).value[0]]
            && r.form == EmptyForm && r.error == None && PrepMinutes(r.form.prepMinutes) == 15
  {
    PrepMinutesOfNumeral(15);
  }

  // ---------------------------------------------------------------- grouping

  /** The heading every item is listed under: the form's category, or "Menu Items". */
  function CategoryKey(category: string): (k: string)
    ensures k != ""
    ensures category != "" ==> k == category
  {
    if category == "" then "Menu Items" else category
  }

  /**
   * `groupedItems`: a reduce that files each item, in order, under the heading the form's
   * category gives. That heading does not depend on the item, so every item lands under
   * one heading, in list order, and an empty list gives no heading at all.
   */
  method GroupItems(items: seq<MenuItem>, category: string) returns (groups: map<string, seq<MenuItem>>)
    ensures items == [] ==> groups == map[]
    ensures items != [] ==> groups == map[CategoryKey(category) := items]
  {
    groups := map[];
    var i := 0;
    while i < |items|
      invariant 0 <= i <= |items|
      invariant i == 0 ==> groups == map[]
      invariant i > 0 ==> groups == map[CategoryKey(category) := items[..i]]
    {
      var key := CategoryKey(category);
      if key !in groups {
        groups := groups[key := []];
      }
      groups := groups[key := groups[key] + [items[i]]];
      assert items[..i + 1] == items[..i] + [items[i]];
      i := i + 1;
    }
    assert items[..i] == items;
  }
}
