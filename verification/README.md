# FEMS marketplace core, modelled in Dafny

FEMS is a food-ordering marketplace. Customers browse vendors' menus, fill a cart and
place pickup orders. Vendors keep a menu and move orders through their statuses. The
backend is a Flask application. Most of its database work is done by stored procedures,
which the Python only calls. The frontend is a set of React pages.

This project models the logic that lives in the Python routes and the React pages:

- the bearer-token guard, registration and login (`Auth`);
- the records and their `to_dict` projections (`Models`);
- the vendor routes around their stored procedures (`Vendors`);
- the customer's cart (`CustomerCart`) and the checkout payload (`Checkout`);
- the shared order list (`OrderList`), the vendor's order board (`VendorOrders`) and the customer's order list (`CustomerOrders`);
- the vendor's menu page (`VendorMenu`);
- the sign-up and profile pages (`Onboarding`).

Support modules: `Wrappers` (Option, Result, truthiness of an optional id), `Services`
(how a frontend service call ends), `Http` (responses and status codes), `Text` (Python
`strip` over every character `str.isspace` accepts, Python `lower` and JavaScript
`toUpperCase` on ASCII letters, decimal numerals and `parseInt`) and `Sequences`
(subsequence).

Modelling choices:

- Money is integer cents. Timestamps are opaque integers.
- Every stored procedure, service call, hash, token decoder and parser the code calls is
  a function parameter. A stored procedure answers a row carrying a `status_message`, or
  no row. `add_menu_item` is also given the calls already executed in the same
  transaction, since it runs after them and sees their rows.
- The user account is a class, because login updates `last_login` in place. The
  database session of `add_menu_items` is a class whose methods are `execute`, `commit`
  and `rollback`. Every other record is a value.
- Loops the source has stay loops: the required-field walk of `register`, the item loop
  of `add_menu_items`, the row fold of `get_vendor`, the value rewrite of `row_to_dict`
  (over an array) and the `groupedItems` reduce. Each is proved against a specification
  function.
- Python and JavaScript truthiness is written out: a NULL or 0 id is false, and so is an
  empty string.
- The cancel button on the customer's order list is shown for pending, accepted and
  preparing orders (customer/Orders.tsx:241). A description of the system that names
  only pending and accepted would be narrower; the model follows the code.

## Model

| member | source | states |
|---|---|---|
| Text.StripIdempotent | FEMS_project/backend/auth.py:37 | stripping twice is stripping once |
| Text.LowerIsLower | FEMS_project/backend/auth.py:37 | a lower-cased string has no capital letter, and lower-casing it again changes nothing |
| Text.DecimalRoundTrip | FEMS_project/frontend/src/pages/vendor/Menu.tsx:154 | reading back the decimal numeral of n gives n |
| Text.ParseIntRoundTrip | FEMS_project/frontend/src/pages/vendor/Menu.tsx:154 | `parseInt` of the numeral of n is n; `parseInt("")` is NaN |
| Text.DigitPrefixOfDigits | FEMS_project/frontend/src/pages/vendor/Menu.tsx:154 | an all-digit string is read whole by `parseInt` |
| Text.ParseInt | FEMS_project/frontend/src/pages/vendor/Menu.tsx:154 | NaN exactly when no digit follows the optional sign |
| Models.User.ToDict | FEMS_project/backend/models.py:40-49 | the projection carries every column except the password hash and the last login |
| Models.NewVendor | FEMS_project/backend/models.py:70-76 | an omitted pickup flag is true, an omitted delivery flag false; no menu yet |
| Models.NewMenu | FEMS_project/backend/models.py:100-104 | an omitted `is_active` is true; no items yet |
| Models.NewMenuItem | FEMS_project/backend/models.py:123-132 | an omitted item is available and takes 15 minutes |
| Models.NewOrder | FEMS_project/backend/models.py:151-162 | omitted status and payment status are 'pending', fulfilment 'pickup' |
| Models.NewOrderItem | FEMS_project/backend/models.py:188-194 | a line needs both snapshots, else it is refused; an omitted quantity is 1 |
| Models.InsertUnique | FEMS_project/backend/models.py:71 | an insert under a unique key succeeds exactly when the key is not taken |
| Models.InsertUniqueKeeps | FEMS_project/backend/models.py:71 | a successful insert keeps the key unique |
| Models.InsertVendor | FEMS_project/backend/models.py:71 | a second vendor profile for a user is refused; uniqueness of `user_id` is kept |
| Models.InsertMenu | FEMS_project/backend/models.py:101 | a second menu for a vendor is refused; uniqueness of `vendor_id` is kept |
| Models.MenuItemToDict | FEMS_project/backend/models.py:134-143 | the item's public columns, without menu, vendor or timestamp |
| Models.MenuItemsToDicts | FEMS_project/backend/models.py:114 | one dict per item, in order |
| Models.MenuToDict | FEMS_project/backend/models.py:109-115 | the menu's items are the dicts of its items, one each, in order |
| Models.VendorToDict | FEMS_project/backend/models.py:84-92 | the menu is present exactly when the vendor has one |
| Models.OrderItemToDict | FEMS_project/backend/models.py:196-203 | name and price come from the snapshots |
| Models.OrderItemsToDicts | FEMS_project/backend/models.py:179 | one dict per line, in order |
| Models.OrderToDict | FEMS_project/backend/models.py:167-180 | exactly one dict per order item, in `order_items` order |
| Models.OrderDictIgnoresMenuItemLink | FEMS_project/backend/models.py:190-203 | relinking or nulling the lines' menu item changes neither the projection nor any line total |
| Auth.IndexOfSpace | FEMS_project/backend/auth.py:17 | the first space, or none exactly when there is no space |
| Auth.AfterFirstSpace | FEMS_project/backend/auth.py:17 | `split(" ", 1)[1]` fails exactly when there is no space |
| Auth.BearerTokenIsRest | FEMS_project/backend/auth.py:15-17 | after the prefix test, the token is the header minus "Bearer " |
| Auth.BearerRoundTrip | FEMS_project/backend/auth.py:15-17 | the token put after "Bearer " is the token extracted |
| Auth.TokenRequired | FEMS_project/backend/auth.py:11-27 | 401 without the prefix, with a failed decode, or with an unknown user; else the handler's answer for that user |
| Auth.NoBearerNoHandler | FEMS_project/backend/auth.py:14-16 | without the prefix the answer does not depend on the handler |
| Auth.FirstMissing | FEMS_project/backend/auth.py:32-35 | the first absent or empty field, every field before it present |
| Auth.FirstMissingComplete | FEMS_project/backend/auth.py:32-35 | the field walk gets through exactly when all five fields are present |
| Auth.NormalizeEmailIdempotent | FEMS_project/backend/auth.py:37 | normalising a normalised email changes nothing |
| Auth.RegisterCheck | FEMS_project/backend/auth.py:31-51 | the first missing field (400), then a taken email (409), then a short password (400); else the normalised row |
| Auth.DuplicateBeforeLength | FEMS_project/backend/auth.py:38-42 | a taken email is reported even with a short password |
| Auth.EmailsOf | FEMS_project/backend/auth.py:38 | exactly the emails of the users table |
| Auth.Register | FEMS_project/backend/auth.py:29-59 | the field loop and checks answer as `RegisterCheck`; an accepted user is appended with the hash, and a failed commit changes nothing |
| Auth.FindByEmail | FEMS_project/backend/auth.py:68 | a user holding the email; none exactly when no user holds it |
| Auth.FindByEmailFirst | FEMS_project/backend/auth.py:68 | the user found is the first one holding the email |
| Auth.Authenticate | FEMS_project/backend/auth.py:64-73 | a user is authenticated only with both keys, the normalised email and a password that checks; and the user found by the normalised email, with a password that checks, is authenticated |
| Auth.ValidCredentialsAuthenticate | FEMS_project/backend/auth.py:64-73 | correct credentials log in: the first user holding the normalised email, with a password that checks, is the one authenticated |
| Auth.Login | FEMS_project/backend/auth.py:61-80 | 400 without a key; one 401 for an unknown email and a wrong password, touching no user; on success only that user's `last_login` changes |
| Vendors.RequireVendor | FEMS_project/backend/vendors.py:25-33 | a non-vendor gets 403 "Vendor access only"; a vendor gets the route's answer |
| Vendors.NonVendorNeverReachesRoute | FEMS_project/backend/vendors.py:29-32 | for a non-vendor the answer does not depend on the route |
| Vendors.JsonValue | FEMS_project/backend/vendors.py:36-50 | Decimal becomes a float, datetime its ISO string, the rest is kept |
| Vendors.JsonRow | FEMS_project/backend/vendors.py:36-50 | same keys in the same order, every value serialisable; a serialisable row is unchanged |
| Vendors.RowToDict | FEMS_project/backend/vendors.py:36-50 | the in-place rewrite gives `JsonRow`; no row gives no dict |
| Vendors.RowsToDicts | FEMS_project/backend/vendors.py:478 | one dict per row, in order |
| Vendors.ProcOutcome | FEMS_project/backend/vendors.py:97-99 | success exactly for a row whose message does not start with "ERROR"; else that message or the fallback |
| Vendors.ProcFailureMessage | FEMS_project/backend/vendors.py:97-99 | a failure's text is the fallback or an "ERROR…" message |
| Vendors.Stripped | FEMS_project/backend/vendors.py:80-83 | empty exactly when the field is absent or blank |
| Vendors.CreateMenu | FEMS_project/backend/vendors.py:69-113 | 403, then 400 for a blank title; only then the procedure, committed whatever it answers |
| Vendors.BlankTitleSkipsProcedure | FEMS_project/backend/vendors.py:80-83 | a blank title never reaches the procedure |
| Vendors.PriceOrZero | FEMS_project/backend/vendors.py:184 | a NULL price reads as 0 |
| Vendors.ItemToView | FEMS_project/backend/vendors.py:180-188 | the view's id, name and price come from the procedure's row |
| Vendors.BatchAsWritten | FEMS_project/backend/vendors.py:132-134 | as written, a falsy body or the empty list becomes a one-item batch |
| Vendors.EmptyListCheckUnreachable | FEMS_project/backend/vendors.py:132-136 | as written, the batch is never empty, and `[]` is refused as a nameless item |
| Vendors.Batch | FEMS_project/backend/vendors.py:132-136 | as intended: empty exactly for the empty list; a single object is a one-item batch |
| Vendors.BatchDiffersOnlyOnEmptyList | FEMS_project/backend/vendors.py:132-136 | the two readings differ only on the empty list |
| Vendors.ValidateItem | FEMS_project/backend/vendors.py:140-159 | refused exactly for a blank name or a missing price; else the stripped name and the defaults |
| Vendors.RunBatchHead | FEMS_project/backend/vendors.py:140-188 | a batch whose first item is not accepted is not created; an accepted first item goes in front of the rest, whose calls are made after its own |
| Vendors.CallsCons | FEMS_project/backend/vendors.py:161-173 | the calls before item k are the first item's call followed by the calls of the rest before it |
| Vendors.RunBatchCreatedIff | FEMS_project/backend/vendors.py:138-195 | all or nothing: the batch is created exactly when every item is accepted, each judged after the calls of the items before it in the same transaction |
| Vendors.RunBatchItemAt | FEMS_project/backend/vendors.py:161-188 | item k of a created batch was accepted after the calls of the items before it; entry k is the view of the row its call answered |
| Vendors.RunBatchWrittenCalls | FEMS_project/backend/vendors.py:161-190 | the calls a created batch commits are the checked arguments of its items, in order |
| Vendors.RunBatchRejects | FEMS_project/backend/vendors.py:140-178 | a batch that is not created has an item that was not accepted after the calls of the items before it |
| Vendors.RunBatchCreatedLength | FEMS_project/backend/vendors.py:161-195 | a created batch answers one view per item |
| Vendors.RunBatchCreatedInOrder | FEMS_project/backend/vendors.py:161-188 | a created batch has one entry and one call per item, in input order, each entry from that item's call made after the earlier ones |
| Vendors.RunBatchFailedMessage | FEMS_project/backend/vendors.py:140-178 | a failed batch carries the fallback or an "ERROR…" message; an invalid one stopped early |
| Vendors.PrependPrepend | FEMS_project/backend/vendors.py:161-188 | prefixes of a batch run compose |
| Vendors.Session.Execute | FEMS_project/backend/vendors.py:161-173 | a call is pending until commit |
| Vendors.Session.Commit | FEMS_project/backend/vendors.py:190 | the pending calls become durable |
| Vendors.Session.Rollback | FEMS_project/backend/vendors.py:176 | the pending calls are dropped |
| Vendors.BatchStep | FEMS_project/backend/vendors.py:140-178 | one turn of the item loop: an invalid item ends the batch as invalid with the calls made so far, a failed call (made after the pending ones) ends it failed with that message, a good item joins the created and pending lists |
| Vendors.AddMenuItems | FEMS_project/backend/vendors.py:122-199 | 403, then 400 for an empty batch, then the batch as `RunBatch` says: all committed, or nothing committed; the batch is read as intended (`Vendors.Batch`), so `[]` gets "items array cannot be empty", where the code as written answers "Each item requires name and price" (see Findings) |
| Vendors.InsertItems | FEMS_project/backend/vendors.py:138-195 | the item loop ends as `RunBatch` says: 201 with every item and every call committed, 400 at an invalid item with nothing committed, or 400 with the message and everything rolled back |
| Vendors.UpdateMenuItem | FEMS_project/backend/vendors.py:208-271 | 403, else the procedure's answer, committed whatever it is |
| Vendors.DeleteMenuItem | FEMS_project/backend/vendors.py:280-316 | 403, else the procedure's answer, committed whatever it is |
| Vendors.FirstMenu | FEMS_project/backend/vendors.py:381-388 | the menu of the first row with a menu id; none exactly when no row has one |
| Vendors.ItemsOf | FEMS_project/backend/vendors.py:389-399 | at most one item per row |
| Vendors.ItemsOfRow | FEMS_project/backend/vendors.py:389-399 | wherever it stands, a row whose item id is NULL or 0 contributes nothing, and any other row contributes its own item in its place |
| Vendors.ItemsOfAppend | FEMS_project/backend/vendors.py:381-399 | items of consecutive rows concatenate |
| Vendors.ItemsOfEveryRow | FEMS_project/backend/vendors.py:389-399 | when every row has an item, exactly one item per row, in row order |
| Vendors.FoldMenuRows | FEMS_project/backend/vendors.py:378-401 | the row loop gives `MenuOf`; no menu exactly when no row has a menu id |
| Vendors.GetVendor | FEMS_project/backend/vendors.py:323-411 | 404 for an unknown vendor; else its columns and its folded menu |
| Vendors.LimitArg | FEMS_project/backend/vendors.py:432 | absent or unparsable reads as 50 |
| Vendors.DateArg | FEMS_project/backend/vendors.py:444-454 | absent or empty is no bound; anything else must parse |
| Vendors.GetVendorOrders | FEMS_project/backend/vendors.py:420-492 | 403, limit outside 1..100, then bad dates are 400; else one dict per row and `total` their number |
| Vendors.GetOrderDetails | FEMS_project/backend/vendors.py:501-569 | 403, 404 for an unknown order, else the order and one dict per line with their count |
| Vendors.UpdateOrderStatus | FEMS_project/backend/vendors.py:578-641 | 403, blank status, then a bad ready time are 400 and uncommitted; else the procedure with the stripped status, committed |
| Vendors.StatusSentIsStripped | FEMS_project/backend/vendors.py:589-593 | the status sent is never blank and never padded |
| Vendors.GetVendorStats | FEMS_project/backend/vendors.py:650-695 | no analytics row gives all-zero statistics, not an error |
| Vendors.ZeroStatsAreZero | FEMS_project/backend/vendors.py:678-688 | every default statistic is zero |
| CustomerCart.Bump | FEMS_project/frontend/src/pages/customer/VendorMenu.tsx:79-81 | the cart keeps its length |
| CustomerCart.AddToCart | FEMS_project/frontend/src/pages/customer/VendorMenu.tsx:77-85 | a new item is appended with quantity 1 |
| CustomerCart.BumpOnly | FEMS_project/frontend/src/pages/customer/VendorMenu.tsx:79-81 | bumping an id held by one entry raises that entry alone |
| CustomerCart.BumpNone | FEMS_project/frontend/src/pages/customer/VendorMenu.tsx:79-81 | bumping an absent id changes nothing |
| CustomerCart.AddExisting | FEMS_project/frontend/src/pages/customer/VendorMenu.tsx:78-82 | re-adding raises that entry by exactly 1, every other entry unchanged |
| CustomerCart.AddKeepsValid | FEMS_project/frontend/src/pages/customer/VendorMenu.tsx:77-85 | ids stay unique and quantities at least 1 |
| CustomerCart.UpdateQuantity | FEMS_project/frontend/src/pages/customer/VendorMenu.tsx:93-101 | the cart never grows |
| CustomerCart.Others | FEMS_project/frontend/src/pages/customer/VendorMenu.tsx:93-101 | only entries with other ids |
| CustomerCart.UpdateQuantityOthers | FEMS_project/frontend/src/pages/customer/VendorMenu.tsx:93-101 | entries with other ids, and their order, are untouched |
| CustomerCart.OthersAppend | FEMS_project/frontend/src/pages/customer/VendorMenu.tsx:93-101 | `Others` distributes over concatenation |
| CustomerCart.UpdateQuantityAt | FEMS_project/frontend/src/pages/customer/VendorMenu.tsx:93-101 | in a valid cart the entry is set to quantity + delta in place when positive, else removed |
| CustomerCart.UpdateQuantityRaise | FEMS_project/frontend/src/pages/customer/VendorMenu.tsx:95-97 | a positive result replaces the entry in place |
| CustomerCart.UpdateQuantityDrop | FEMS_project/frontend/src/pages/customer/VendorMenu.tsx:98-99 | a non-positive result removes the entry |
| CustomerCart.ValidTail | FEMS_project/frontend/src/pages/customer/VendorMenu.tsx:78-85 | the rest of a valid cart is valid and lacks the first id |
| CustomerCart.UpdateQuantityAbsent | FEMS_project/frontend/src/pages/customer/VendorMenu.tsx:93-101 | an absent id changes nothing |
| CustomerCart.UpdateKeepsValid | FEMS_project/frontend/src/pages/customer/VendorMenu.tsx:93-101 | ids stay unique and quantities at least 1 |
| CustomerCart.ReplaceKeepsValid | FEMS_project/frontend/src/pages/customer/VendorMenu.tsx:95-97 | a same-id replacement with quantity at least 1 keeps the cart valid |
| CustomerCart.RemoveKeepsValid | FEMS_project/frontend/src/pages/customer/VendorMenu.tsx:98-99 | removing an entry keeps the cart valid |
| CustomerCart.AddThenDecrement | FEMS_project/frontend/src/pages/customer/VendorMenu.tsx:77-101 | adding then pressing "−" gives the cart back |
| CustomerCart.CountAtLeastEntries | FEMS_project/frontend/src/pages/customer/VendorMenu.tsx:104 | the count is at least the number of entries |
| CustomerCart.TotalsAppend | FEMS_project/frontend/src/pages/customer/VendorMenu.tsx:103-104 | totals of a concatenation add up |
| CustomerCart.TotalsUpdate | FEMS_project/frontend/src/pages/customer/VendorMenu.tsx:103-104 | replacing one entry changes the totals by that entry's difference |
| CustomerCart.AddExistingTotals | FEMS_project/frontend/src/pages/customer/VendorMenu.tsx:78-104 | re-adding raises the count by 1 and the total by the unit price |
| CustomerCart.RaiseOneTotals | FEMS_project/frontend/src/pages/customer/VendorMenu.tsx:103-104 | one more unit adds one to the count and its price to the total |
| CustomerCart.AddNewTotals | FEMS_project/frontend/src/pages/customer/VendorMenu.tsx:83-104 | a new item adds one to the count and its price to the total |
| CustomerCart.AddToCartCount | FEMS_project/frontend/src/pages/customer/VendorMenu.tsx:77-104 | every add counts exactly one more unit |
| CustomerCart.CardActionFor | FEMS_project/frontend/src/pages/customer/VendorMenu.tsx:207-220 | the add button is shown exactly for available items |
| CustomerCart.ClickCard | FEMS_project/frontend/src/pages/customer/VendorMenu.tsx:207-220 | an unavailable item's card adds nothing |
| CustomerCart.OnlyAvailableItemsEnter | FEMS_project/frontend/src/pages/customer/VendorMenu.tsx:207-220 | no click or quantity change brings an unavailable item into the cart |
| CustomerCart.AddKeepsAvailable | FEMS_project/frontend/src/pages/customer/VendorMenu.tsx:77-85 | adding an available item keeps every entry available |
| CustomerCart.BumpKeepsAvailable | FEMS_project/frontend/src/pages/customer/VendorMenu.tsx:79-81 | bumping keeps every entry available |
| CustomerCart.UpdateKeepsAvailable | FEMS_project/frontend/src/pages/customer/VendorMenu.tsx:93-101 | a quantity change keeps every entry available |
| Checkout.StateOrDefault | FEMS_project/frontend/src/pages/customer/Checkout.tsx:18-23 | no state gives an empty cart and no vendor |
| Checkout.PickupTime | FEMS_project/frontend/src/pages/customer/Checkout.tsx:53 | the date, a 'T', the time, then ":00" |
| Checkout.PickupTimeInjective | FEMS_project/frontend/src/pages/customer/Checkout.tsx:53 | date and time are recovered from the pickup time |
| Checkout.Lines | FEMS_project/frontend/src/pages/customer/Checkout.tsx:61-65 | one line per cart entry, in order, id and quantity kept, notes "" |
| Checkout.LinesCountUnits | FEMS_project/frontend/src/pages/customer/Checkout.tsx:61-65 | the payload orders as many units as the cart counts |
| Checkout.PlaceOrder | FEMS_project/frontend/src/pages/customer/Checkout.tsx:30-84 | date and time first, then vendor and cart; the payload as built; navigation exactly after a created order |
| Checkout.NoStateNothingSent | FEMS_project/frontend/src/pages/customer/Checkout.tsx:18-47 | without the menu page's state nothing is sent |
| Checkout.SentOrderMatchesCart | FEMS_project/frontend/src/pages/customer/Checkout.tsx:56-66 | a sent order is a pickup for the cart's vendor with the cart's units |
| OrderList.UniqueIdsTail | FEMS_project/frontend/src/pages/vendor/Orders.tsx:74-79 | the tail of a list with unique ids has unique ids |
| OrderList.StatusOf | FEMS_project/frontend/src/pages/vendor/Orders.tsx:74-79 | none exactly when no order has the id |
| OrderList.SetStatus | FEMS_project/frontend/src/pages/vendor/Orders.tsx:74-79 | orders with the id get the status; every other order, and the length, unchanged |
| OrderList.SetStatusAbsent | FEMS_project/frontend/src/pages/vendor/Orders.tsx:74-79 | an absent id changes nothing |
| OrderList.SetStatusKeepsIds | FEMS_project/frontend/src/pages/vendor/Orders.tsx:74-79 | unique ids stay unique |
| OrderList.StatusOfAfterSet | FEMS_project/frontend/src/pages/vendor/Orders.tsx:74-79 | read back: the order has the new status, every other id its own |
| OrderList.SetStatusLastWins | FEMS_project/frontend/src/pages/vendor/Orders.tsx:74-79 | of two updates the later wins |
| VendorOrders.WithStatusIn | FEMS_project/frontend/src/pages/vendor/Orders.tsx:96-103 | exactly the orders whose status is in the group, in list order |
| VendorOrders.OrdersByStatus | FEMS_project/frontend/src/pages/vendor/Orders.tsx:94-105 | "active" and "completed" keep exactly their statuses, in order; any other filter gives nothing |
| VendorOrders.TabsDisjoint | FEMS_project/frontend/src/pages/vendor/Orders.tsx:96-103 | no order is on both tabs; an unknown status is on neither |
| VendorOrders.TabCounts | FEMS_project/frontend/src/pages/vendor/Orders.tsx:94-105 | the tab counts add to at most the list length, to exactly it when all statuses are known |
| VendorOrders.CountsAdd | FEMS_project/frontend/src/pages/vendor/Orders.tsx:94-105 | no status is in both groups, so the two counts add up to at most the number of orders, and to exactly it when every status is known |
| VendorOrders.NextStatuses | FEMS_project/frontend/src/pages/vendor/Orders.tsx:335-388 | buttons exactly for active statuses, each to a known status |
| VendorOrders.ButtonsMoveForward | FEMS_project/frontend/src/pages/vendor/Orders.tsx:335-388 | every button moves the order strictly forward |
| VendorOrders.ClickPathsEnd | FEMS_project/frontend/src/pages/vendor/Orders.tsx:335-388 | a run of clicks visits at most five statuses |
| VendorOrders.ButtonsOnTab | FEMS_project/frontend/src/pages/vendor/Orders.tsx:188-229 | the completed tab shows no buttons |
| VendorOrders.CompletedAreFinal | FEMS_project/frontend/src/pages/vendor/Orders.tsx:188-229 | an order on the completed tab offers no transition |
| VendorOrders.StatusChange | FEMS_project/frontend/src/pages/vendor/Orders.tsx:70-92 | nothing sent without a vendor id; the list changes only on success, by `SetStatus`; a failure keeps it and shows the message |
| VendorOrders.CountIsFilterSize | FEMS_project/frontend/src/pages/vendor/Orders.tsx:96-103 | the count of a group is the length of its filter |
| VendorOrders.MoveToCompletedTab | FEMS_project/frontend/src/pages/vendor/Orders.tsx:74-105 | moving an active order into a completed status moves one order between the tabs |
| VendorOrders.MoveCounts | FEMS_project/frontend/src/pages/vendor/Orders.tsx:74-79 | the group counts change by one each |
| CustomerOrders.CancellableOrders | FEMS_project/frontend/src/pages/customer/Orders.tsx:241 | cancellable exactly for an active status other than ready; a cancelled order offers nothing |
| CustomerOrders.CancelOrder | FEMS_project/frontend/src/pages/customer/Orders.tsx:59-79 | on success only the matching order becomes "cancelled"; on failure the list is kept and the message shown |
| CustomerOrders.CancelledStaysCancelled | FEMS_project/frontend/src/pages/customer/Orders.tsx:59-79 | the cancelled order reads back cancelled and not cancellable; others keep their status |
| CustomerOrders.StatusLabel | FEMS_project/frontend/src/pages/customer/Orders.tsx:119-137 | ready reads "READY FOR PICKUP", completed "DELIVERED" |
| CustomerOrders.LabelIsUpperCase | FEMS_project/frontend/src/pages/customer/Orders.tsx:119-137 | every other status, known or not, reads in capitals |
| CustomerOrders.UpperOf | FEMS_project/frontend/src/pages/customer/Orders.tsx:135 | upper-casing a lower-case ASCII word |
| CustomerOrders.StatusIcon | FEMS_project/frontend/src/pages/customer/Orders.tsx:81-97 | the four icon groups, and no icon exactly for an unknown status |
| VendorMenu.ToggleAvailable | FEMS_project/frontend/src/pages/vendor/Menu.tsx:109-111 | flips availability only on entries with the id |
| VendorMenu.ToggleTwice | FEMS_project/frontend/src/pages/vendor/Menu.tsx:109-111 | toggling twice restores the list |
| VendorMenu.ToggleAvailability | FEMS_project/frontend/src/pages/vendor/Menu.tsx:98-124 | nothing sent without vendor and menu; the list changes only on success |
| VendorMenu.RemoveItem | FEMS_project/frontend/src/pages/vendor/Menu.tsx:187 | exactly the entries with other ids, in order |
| VendorMenu.RemoveUndoesAppend | FEMS_project/frontend/src/pages/vendor/Menu.tsx:161-187 | removing a just-appended fresh item gives the list back |
| VendorMenu.HandleRemoveItem | FEMS_project/frontend/src/pages/vendor/Menu.tsx:182-200 | nothing sent without vendor and menu; the item leaves only on success |
| VendorMenu.PrepMinutes | FEMS_project/frontend/src/pages/vendor/Menu.tsx:154 | NaN and 0 fall back to 15 |
| VendorMenu.PrepMinutesOfNumeral | FEMS_project/frontend/src/pages/vendor/Menu.tsx:154 | a typed positive number is kept; empty and the reset "15" give 15 |
| VendorMenu.ItemDataOf | FEMS_project/frontend/src/pages/vendor/Menu.tsx:150-157 | always available; an empty image URL is null |
| VendorMenu.EnsureMenuExists | FEMS_project/frontend/src/pages/vendor/Menu.tsx:85-96 | the loaded menu's id without a call; else a "Main Menu" is created |
| VendorMenu.HandleAddItem | FEMS_project/frontend/src/pages/vendor/Menu.tsx:126-180 | empty name or price first, then no vendor id, before any call; a success appends and resets the form |
| VendorMenu.AddAppendsFirstCreated | FEMS_project/frontend/src/pages/vendor/Menu.tsx:161-164 | the first returned item goes at the end and the form resets to 15 minutes |
| VendorMenu.CategoryKey | FEMS_project/frontend/src/pages/vendor/Menu.tsx:204 | the category, or "Menu Items" |
| VendorMenu.GroupItems | FEMS_project/frontend/src/pages/vendor/Menu.tsx:202-210 | every item under one heading, in order; no heading for an empty list |
| Onboarding.DefaultRole | FEMS_project/frontend/src/pages/SignUp.tsx:14 | an absent or empty role is "customer" |
| Onboarding.ProfileCheck | FEMS_project/frontend/src/pages/CompleteProfile.tsx:30-46 | empty name or phone first, then a vendor without a vendor name; passes exactly otherwise |
| Onboarding.SignUpCheck | FEMS_project/frontend/src/pages/SignUp.tsx:35-69 | mismatch first, then a short password, then the profile checks |
| Onboarding.SignUpChecksProfile | FEMS_project/frontend/src/pages/SignUp.tsx:53-69 | past the password checks sign-up refuses as the profile page does; a customer needs no vendor name |
| Onboarding.HomeFor | FEMS_project/frontend/src/pages/SignUp.tsx:107-111 | vendors to /vendor/menu, everyone else to /customer/vendors |
| Onboarding.ErrorText | FEMS_project/frontend/src/pages/SignUp.tsx:114 | the server's error, else the message, else the fallback |
| Onboarding.SubmitSignUp | FEMS_project/frontend/src/pages/SignUp.tsx:31-120 | refused by the checks before any call, and never refused once they pass; lands home exactly when registration and profile succeed; a failed registration or profile completion shows the server's error, the message or "Failed to create account" |
| Onboarding.VerificationFailureIgnored | FEMS_project/frontend/src/pages/SignUp.tsx:85-95 | the outcome does not depend on the automatic verification |
| Onboarding.SubmitProfile | FEMS_project/frontend/src/pages/CompleteProfile.tsx:27-85 | refused by the checks, and never refused once they pass; lands home exactly when completion succeeds; a failure shows the server's error, the message or "Failed to complete profile" |
| Onboarding.InitialProfileIsCustomer | FEMS_project/frontend/src/pages/CompleteProfile.tsx:18-46 | the initial role is customer, refused until name and phone are typed |
| Onboarding.SignUpLandsLikeProfile | FEMS_project/frontend/src/pages/SignUp.tsx:97-111 | a landed sign-up lands where the profile page would |

## Left out

- Exceptions that Flask answers with 500, such as a failed procedure call or a failed query, are not modelled. The one exception kept is `Auth.Register`'s failed commit.
- HTTP plumbing, CORS, app wiring and the health check are not modelled.
- JSON bodies of the wrong type are not modelled: every field is taken to have the type the route expects. Every falsy body is `NoBody`.
- Bcrypt and JWT are parameters, and so are `datetime.fromisoformat` and werkzeug's `type=int` conversion.
- Float conversion of prices (`float(Decimal)`, `parseFloat`) is not modelled: amounts are integer cents, and the menu page's price parser is a parameter.
- Stored procedures and SQL views are parameters. Their bodies are not part of this model, so neither is which status transitions the server accepts.
- The `verify_vendor_ownership` query is the boolean `owns`.
- React rendering, toasts' titles and success texts, loading flags, dialogs, `useEffect` loading and local storage are not modelled. Only the error text each handler shows is kept.
- Vendor-side status colours and icons are not modelled.
- The profile page's attempt to verify the email from stored data is not modelled; it cannot change the outcome.
- Vendors.AddMenuItems: follows the intended batch reading (`Vendors.Batch`), so an empty list is answered 400 "items array cannot be empty"; the code as written answers 400 "Each item requires name and price", which `Vendors.EmptyListCheckUnreachable` states (see Findings).
- Text.Lower and Text.Upper: case is mapped on ASCII letters only, whereas Python `str.lower()` and JavaScript `toUpperCase()` map all of Unicode. So `Auth.RegisterCheck` and `Auth.Authenticate` treat "É@x.com" and "é@x.com" as different emails, where `auth.py` finds them equal. For the same reason, `CustomerOrders.StatusLabel` leaves non-ASCII letters of an unknown status as they are.
- Text.ParseInt: reads an optional sign and leading decimal digits. JavaScript's skipping of leading white space and its "0x" prefix are not modelled.
- VendorMenu.EnsureMenuExists: with neither menu nor vendor id the page throws a TypeError; the model gives a Failure with a placeholder text. `HandleAddItem` checks the vendor id first, so this case never reaches it.
- VendorMenu.GroupItems: the page never sets the form's category, so in practice every item is under "Menu Items"; the model keeps the category as an input.
- Customer order placement on the server, customer routes, email verification and notifications are not part of this model.

## Findings

| source | as written | input that shows it | evidently intended | confidence | as-written member | corrected member |
|---|---|---|---|---|---|---|
| FEMS_project/backend/vendors.py:132-136 | `request.get_json() or {}` turns an empty list into `{}`, which becomes the one-item batch `[{}]`, so the "items array cannot be empty" check can never fire | a POST with body `[]` is answered 400 "Each item requires name and price" | an empty list is answered 400 "items array cannot be empty" | high (not executed) | Vendors.EmptyListCheckUnreachable | Vendors.Batch |
