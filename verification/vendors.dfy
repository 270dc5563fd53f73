/**
 * Vendor routes (backend/vendors.py). Every route except the public vendor page runs
 * behind the bearer-token guard, then the vendor-role guard, then an ownership test;
 * the database work itself happens in stored procedures whose bodies are not part of
 * this model. A stored procedure is therefore a function parameter that answers a
 * row carrying a `status_message` (or no row at all), and the ownership query is the
 * boolean `owns`. What the model keeps is the Python around those calls: the order of
 * the checks, the messages and codes, the commit and rollback points, and the way
 * result rows are reshaped into JSON.
 */
module Vendors {
  import opened Wrappers
  import opened Text
  import opened Http
  import Auth
  import Models

  type Cents = Models.Cents
  type Timestamp = Models.Timestamp

  // ---------------------------------------------------------------- guards

  /** `require_vendor`: only a vendor reaches the wrapped route. */
  function RequireVendor<T>(user: Auth.Principal, route: Auth.Principal -> Response<T>): (r: Response<T>)
    ensures user.role != "vendor" ==> r == Error(Forbidden, "Vendor access only")
    ensures user.role == "vendor" ==> r == route(user)
  {
    if user.role != "vendor" then Error(Forbidden, "Vendor access only") else route(user)
  }

  /** A caller who is not a vendor gets the same 403 whatever the route would have done. */
  lemma NonVendorNeverReachesRoute<T>(user: Auth.Principal, r1: Auth.Principal -> Response<T>,
                                      r2: Auth.Principal -> Response<T>)
    requires user.role != "vendor"
    ensures RequireVendor(user, r1) == RequireVendor(user, r2) == Error(Forbidden, "Vendor access only")
  {
  }

  // ---------------------------------------------------------------- row_to_dict

  /** A column value as the database driver hands it over, or as JSON renders it. */
  datatype Value =
    | Null
    | Bool(b: bool)
    | Int(i: int)
    | Text(s: string)
    | Decimal(cents: Cents)   // a NUMERIC(…, 2) column
    | Number(cents: Cents)    // a JSON float
    | DateTime(at: Timestamp) // a TIMESTAMP column
    | IsoString(at: Timestamp) // `datetime.isoformat()`

  datatype Column = Column(key: string, value: Value)

  /** What `jsonify` can render: no Decimal and no datetime left. */
  predicate Serializable(v: Value) {
    !v.Decimal? && !v.DateTime?
  }

  /** The conversion `row_to_dict` applies to one value. */
  function JsonValue(v: Value): (r: Value)
    ensures Serializable(r)
    ensures Serializable(v) ==> r == v
    ensures v.Decimal? ==> r == Number(v.cents)
    ensures v.DateTime? ==> r == IsoString(v.at)
  {
    match v
    case Decimal(c) => Number(c)
    case DateTime(t) => IsoString(t)
    case _ => v
  }

  function JsonColumn(c: Column): Column {
    Column(c.key, JsonValue(c.value))
  }

  /** The dictionary `row_to_dict` returns for a row: same keys in the same order, every
      value converted. Converting twice changes nothing more. */
  function JsonRow(row: seq<Column>): (r: seq<Column>)
    ensures |r| == |row|
    ensures forall k :: 0 <= k < |row| ==> r[k].key == row[k].key && Serializable(r[k].value)
    ensures forall k :: 0 <= k < |row| ==> r[k].value == JsonValue(row[k].value)
    ensures (forall k :: 0 <= k < |row| ==> Serializable(row[k].value)) ==> r == row
  {
    seq(|row|, k requires 0 <= k < |row| => JsonColumn(row[k]))
  }

  /**
   * `row_to_dict`: copies the row and rewrites, key by key, each Decimal into a float
   * and each datetime into its ISO string. No row gives no dictionary.
   */
  method RowToDict(row: Option<seq<Column>>) returns (r: Option<seq<Column>>)
    ensures r == None <==> row == None
    ensures row != None ==> r == Some(JsonRow(row.value))
  {
    if row == None {
      return None;
    }
    var cols := row.value;
    var result := new Column[|cols|](k requires 0 <= k < |cols| => cols[k]);
    for i := 0 to result.Length
      invariant forall k :: 0 <= k < i ==> result[k] == JsonColumn(cols[k])
      invariant forall k :: i <= k < result.Length ==> result[k] == cols[k]
    {
      var c := result[i];
      if c.value.Decimal? {
        result[i] := Column(c.key, Number(c.value.cents));
      } else if c.value.DateTime? {
        result[i] := Column(c.key, IsoString(c.value.at));
      }
    }
    assert result[..] == JsonRow(cols) by {
      forall k | 0 <= k < |cols| ensures result[..][k] == JsonRow(cols)[k] {
        assert result[k] == JsonColumn(cols[k]);
      }
    }
    r := Some(result[..]);
  }

  /** `[row_to_dict(row) for row in result]`. */
  method RowsToDicts(rows: seq<seq<Column>>) returns (ds: seq<seq<Column>>)
    ensures |ds| == |rows|
    ensures forall k :: 0 <= k < |rows| ==> ds[k] == JsonRow(rows[k])
  {
    ds := [];
    for i := 0 to |rows|
      invariant |ds| == i
      invariant forall k :: 0 <= k < i ==> ds[k] == JsonRow(rows[k])
    {
      var d := RowToDict(Some(rows[i]));
      ds := ds + [d.value];
    }
  }

  // ---------------------------------------------------------------- stored procedures

  /** The first row a stored procedure returns: its `status_message` and its columns. */
  datatype ProcRow<T> = ProcRow(statusMessage: string, row: T)

  /**
   * `if not result or result.status_message.startswith("ERROR")`: a missing row fails
   * with the route's own fallback message, a row whose message starts with "ERROR"
   * fails with that message, and any other row succeeds.
   */
  function ProcOutcome<T>(result: Option<ProcRow<T>>, fallback: string): (r: Result<T, string>)
    ensures r.Success? <==> result != None && !StartsWith(result.value.statusMessage, "ERROR")
    ensures r.Success? ==> r.value == result.value.row
    ensures result == None ==> r == Failure(fallback)
    ensures result != None && r.Failure? ==> r.error == result.value.statusMessage
  {
    if result == None then Failure(fallback)
    else if StartsWith(result.value.statusMessage, "ERROR") then Failure(result.value.statusMessage)
    else Success(result.value.row)
  }

  /** The error text of a failed procedure call is the fallback or an "ERROR…" message. */
  lemma ProcFailureMessage<T>(result: Option<ProcRow<T>>, fallback: string)
    requires ProcOutcome(result, fallback).Failure?
    ensures var m := ProcOutcome(result, fallback).error;
            m == fallback || StartsWith(m, "ERROR")
  {
  }

  /** A route's answer together with whether it reached `db.session.commit()`. */
  datatype Handled<T> = Handled(response: Response<T>, committed: bool)

  /** A success body: the route's fixed message and the object it reports. */
  datatype Message<T> = Message(message: string, value: T)

  /** `if not title` after `.strip()`: an absent key reads as "". */
  function Stripped(field: Option<string>): (r: string)
    ensures r == [] <==> field == None || Blank(field.value)
  {
    if field == None then "" else Strip(field.value)
  }

  // ---------------------------------------------------------------- create_menu

  datatype MenuRow = MenuRow(menuId: int, title: string, isActive: bool, createdAt: Option<Timestamp>)

  /**
   * `create_menu`. Ownership first (403), then a title that is not blank once stripped
   * (400 "title is required"); only then is `create_vendor_menu` called, with the
   * stripped title. The route commits before it looks at the procedure's answer, so
   * even an "ERROR…" answer is committed.
   */
  function CreateMenu(owns: bool, vendorId: int, title: Option<string>,
                      createVendorMenu: (int, string) -> Option<ProcRow<MenuRow>>): (h: Handled<Message<MenuRow>>)
    ensures !owns ==> h == Handled(Error(Forbidden, "Access denied"), false)
    ensures owns && Stripped(title) == [] ==> h == Handled(Error(BadRequest, "title is required"), false)
    ensures h.committed <==> owns && Stripped(title) != []
    ensures h.committed ==>
              var out := ProcOutcome(createVendorMenu(vendorId, Stripped(title)), "Failed to create menu");
              (out.Failure? ==> h.response == Error(BadRequest, out.error))
              && (out.Success? ==> h.response == Reply(201, Message("Menu created successfully", out.value)))
  {
    if !owns then Handled(Error(Forbidden, "Access denied"), false)
    else
      var t := Stripped(title);
      if t == [] then Handled(Error(BadRequest, "title is required"), false)
      else
        match ProcOutcome(createVendorMenu(vendorId, t), "Failed to create menu")
        case Failure(m) => Handled(Error(BadRequest, m), true)
        case Success(row) => Handled(Reply(201, Message("Menu created successfully", row)), true)
  }

  /** A blank title never reaches the stored procedure: the answer does not depend on it. */
  lemma BlankTitleSkipsProcedure(vendorId: int, title: Option<string>,
                                 p1: (int, string) -> Option<ProcRow<MenuRow>>,
                                 p2: (int, string) -> Option<ProcRow<MenuRow>>)
    requires Stripped(title) == []
    ensures CreateMenu(true, vendorId, title, p1) == CreateMenu(true, vendorId, title, p2)
  {
  }

  // ---------------------------------------------------------------- add_menu_items

  /** One object of the request body; a key the client left out is None. */
  datatype ItemPayload = ItemPayload(
    name: Option<string>, description: Option<string>, price: Option<Cents>,
    available: Option<bool>, preparationTimeMinutes: Option<int>, imageUrl: Option<string>)

  const EmptyItem := ItemPayload(None, None, None, None, None, None)

  /** The JSON body: absent or falsy (null, {}, [], 0, ""), one object, or a list. */
  datatype Payload = NoBody | Object(item: ItemPayload) | Array(items: seq<ItemPayload>)

  /** The arguments `add_menu_item` receives for one item, defaults filled in. */
  datatype ItemArgs = ItemArgs(
    vendorId: int, menuId: int, name: string, description: string, price: Cents,
    available: bool, preparationTimeMinutes: int, imageUrl: Option<string>)

  /** A menu item row as a procedure or a join returns it (columns may be NULL). */
  datatype ItemRow = ItemRow(
    itemId: Option<int>, name: Option<string>, description: Option<string>, price: Option<Cents>,
    available: Option<bool>, preparationTimeMinutes: Option<int>, imageUrl: Option<string>)

  /** The item dictionary the routes answer with. */
  datatype ItemView = ItemView(
    id: Option<int>, name: Option<string>, description: Option<string>, price: Cents,
    available: Option<bool>, preparationTimeMinutes: Option<int>, imageUrl: Option<string>)

  /** `float(price) if price else 0.0`: NULL and zero both read as 0. */
  function PriceOrZero(price: Option<Cents>): (r: Cents)
    ensures price == None ==> r == 0
    ensures price != None ==> r == price.value
  {
    if price == None || price.value == 0 then 0 else price.value
  }

  function ItemToView(row: ItemRow): (v: ItemView)
    ensures v.id == row.itemId && v.name == row.name && v.price == PriceOrZero(row.price)
  {
    ItemView(row.itemId, row.name, row.description, PriceOrZero(row.price), row.available,
             row.preparationTimeMinutes, row.imageUrl)
  }

  /**
   * The batch as written: `request.get_json() or {}` turns every falsy body, the empty
   * list included, into `{}`, and a non-list becomes a one-element batch.
   */
  function BatchAsWritten(p: Payload): (items: seq<ItemPayload>)
    ensures p.Array? && p.items != [] ==> items == p.items
    ensures !p.Array? || p.items == [] ==> |items| == 1
  {
    match p
    case NoBody => [EmptyItem]
    case Object(item) => [item]
    case Array(xs) => if xs == [] then [EmptyItem] else xs
  }

  /** As written, the batch is never empty, so "items array cannot be empty" can never be
      answered, and an empty list is turned away as an item without a name or price. */
  lemma EmptyListCheckUnreachable(p: Payload, vendorId: int, menuId: int, addItem: AddItemProc)
    ensures BatchAsWritten(p) != []
    ensures RunBatch(BatchAsWritten(Array([])), [], vendorId, menuId, addItem) == Invalid([])
  {
    assert ValidateItem(EmptyItem, vendorId, menuId) == None;
  }

  /** The batch as intended: an empty list stays empty, so the route can reject it. */
  function Batch(p: Payload): (items: seq<ItemPayload>)
    ensures items == [] <==> p == Array([])
    ensures p.Array? ==> items == p.items
    ensures p.Object? ==> items == [p.item]
    ensures p.NoBody? ==> items == [EmptyItem]
  {
    match p
    case NoBody => [EmptyItem]
    case Object(item) => [item]
    case Array(xs) => xs
  }

  /** The two readings differ only on the empty list. */
  lemma BatchDiffersOnlyOnEmptyList(p: Payload)
    ensures Batch(p) != BatchAsWritten(p) <==> p == Array([])
  {
  }

  /**
   * One item's check and defaults: a name that is not blank once stripped and a price
   * that is present, else None; description "" , available true and 15 minutes when
   * omitted.
   */
  function ValidateItem(item: ItemPayload, vendorId: int, menuId: int): (r: Option<ItemArgs>)
    ensures r == None <==> Stripped(item.name) == [] || item.price == None
    ensures r != None ==> r.value.name == Stripped(item.name) && r.value.price == item.price.value
    ensures r != None ==> r.value.vendorId == vendorId && r.value.menuId == menuId
    ensures r != None ==> r.value.description == item.description.GetOr("")
    ensures r != None ==> r.value.available == item.available.GetOr(true)
    ensures r != None ==> r.value.preparationTimeMinutes == item.preparationTimeMinutes.GetOr(15)
    ensures r != None ==> r.value.imageUrl == item.imageUrl
  {
    var name := Stripped(item.name);
    if name == [] || item.price == None then None
    else Some(ItemArgs(vendorId, menuId, name, item.description.GetOr(""), item.price.value,
                       item.available.GetOr(true), item.preparationTimeMinutes.GetOr(15),
                       item.imageUrl))
  }

  /** How a batch ends: every item created (the views answered and the calls made),
      an item that failed validation (with the calls made before it, not rolled back),
      or a procedure failure (rolled back). */
  datatype BatchRun =
    | Created(views: seq<ItemView>, written: seq<ItemArgs>)
    | Invalid(written: seq<ItemArgs>)
    | Failed(message: string)

  /** Puts the outcome of earlier items in front of the outcome of the rest. */
  function Prepend(views: seq<ItemView>, written: seq<ItemArgs>, rest: BatchRun): BatchRun {
    match rest
    case Created(v, w) => Created(views + v, written + w)
    case Invalid(w) => Invalid(written + w)
    case Failed(m) => Failed(m)
  }

  /**
   * `add_menu_item`'s answer to a call, given the calls already executed in the same
   * transaction: it runs after them and sees their uncommitted rows, so a repeated
   * name in one batch may be answered differently the second time.
   */
  type AddItemProc = (seq<ItemArgs>, ItemArgs) -> Option<ProcRow<ItemRow>>

  /**
   * The specification of the loop in `add_menu_items`, item by item from the front,
   * after the calls `done` of the same transaction: stop at a failed check or a failed
   * call, else put this item in front of the rest, whose calls come after this one.
   */
  function RunBatch(items: seq<ItemPayload>, done: seq<ItemArgs>, vendorId: int, menuId: int,
                    addItem: AddItemProc): BatchRun
    decreases |items|
  {
    if items == [] then Created([], [])
    else
      match ValidateItem(items[0], vendorId, menuId)
      case None => Invalid([])
      case Some(args) =>
        match ProcOutcome(addItem(done, args), "Failed to add item")
        case Failure(m) => Failed(m)
        case Success(row) =>
          Prepend([ItemToView(row)], [args], RunBatch(items[1..], done + [args], vendorId, menuId, addItem))
  }

  /** An item is accepted after the calls `done` when its check passes and its procedure
      call, made after those, succeeds. */
  predicate Accepted(item: ItemPayload, done: seq<ItemArgs>, vendorId: int, menuId: int, addItem: AddItemProc)
  {
    ValidateItem(item, vendorId, menuId) != None
    && ProcOutcome(addItem(done, ValidateItem(item, vendorId, menuId).value), "Failed to add item").Success?
  }

  /** The call an item leads to when it passes its check: none or one. */
  function CallOf(item: ItemPayload, vendorId: int, menuId: int): seq<ItemArgs> {
    match ValidateItem(item, vendorId, menuId)
    case None => []
    case Some(a) => [a]
  }

  /** The checked arguments of the items that pass their check, in order: the calls a
      run of accepted items makes. */
  function Calls(items: seq<ItemPayload>, vendorId: int, menuId: int): (r: seq<ItemArgs>)
    ensures |r| <= |items|
  {
    if items == [] then [] else CallOf(items[0], vendorId, menuId) + Calls(items[1..], vendorId, menuId)
  }

  /** The calls before item `k` are the first item's call followed by the calls of the
      rest before it. */
  lemma CallsCons(items: seq<ItemPayload>, k: int, vendorId: int, menuId: int, args: ItemArgs)
    requires 0 < k <= |items| && ValidateItem(items[0], vendorId, menuId) == Some(args)
    ensures Calls(items[..k], vendorId, menuId) == [args] + Calls(items[1..][..k - 1], vendorId, menuId)
  {
    assert items[..k][0] == items[0] && items[..k][1..] == items[1..][..k - 1];
  }

  /** The first item's turn: a batch whose first item is not accepted is not created;
      an accepted first item goes in front of the rest, whose calls come after its own. */
  lemma RunBatchHead(items: seq<ItemPayload>, done: seq<ItemArgs>, vendorId: int, menuId: int,
                     addItem: AddItemProc)
    requires items != []
    ensures !Accepted(items[0], done, vendorId, menuId, addItem) ==>
              !RunBatch(items, done, vendorId, menuId, addItem).Created?
    ensures Accepted(items[0], done, vendorId, menuId, addItem) ==>
              var args := ValidateItem(items[0], vendorId, menuId).value;
              addItem(done, args) != None
              && RunBatch(items, done, vendorId, menuId, addItem)
                 == Prepend([ItemToView(addItem(done, args).value.row)], [args],
                            RunBatch(items[1..], done + [args], vendorId, menuId, addItem))
  {
  }

  /** All or nothing: the batch is created exactly when every item is accepted after the
      calls of the items before it. */
  lemma RunBatchCreatedIff(items: seq<ItemPayload>, done: seq<ItemArgs>, vendorId: int, menuId: int,
                           addItem: AddItemProc)
    ensures RunBatch(items, done, vendorId, menuId, addItem).Created?
            <==> forall k :: 0 <= k < |items| ==>
                   Accepted(items[k], done + Calls(items[..k], vendorId, menuId), vendorId, menuId, addItem)
  {
    if RunBatch(items, done, vendorId, menuId, addItem).Created? {
      forall k | 0 <= k < |items|
        ensures Accepted(items[k], done + Calls(items[..k], vendorId, menuId), vendorId, menuId, addItem)
      {
        RunBatchItemAt(items, done, k, vendorId, menuId, addItem);
      }
    } else {
      RunBatchRejects(items, done, vendorId, menuId, addItem);
    }
  }

  /** A batch that is not created has an item that is not accepted after the calls of
      the items before it. */
  lemma {:induction false} RunBatchRejects(items: seq<ItemPayload>, done: seq<ItemArgs>, vendorId: int, menuId: int,
                                           addItem: AddItemProc)
    requires !RunBatch(items, done, vendorId, menuId, addItem).Created?
    ensures exists k :: 0 <= k < |items|
              && !Accepted(items[k], done + Calls(items[..k], vendorId, menuId), vendorId, menuId, addItem)
  {
    RunBatchHead(items, done, vendorId, menuId, addItem);
    if Accepted(items[0], done, vendorId, menuId, addItem) {
      var args := ValidateItem(items[0], vendorId, menuId).value;
      RunBatchRejects(items[1..], done + [args], vendorId, menuId, addItem);
      var k :| 0 <= k < |items[1..]|
               && !Accepted(items[1..][k], done + [args] + Calls(items[1..][..k], vendorId, menuId), vendorId, menuId, addItem);
      ShiftCalls(items, k + 1, done, args, vendorId, menuId);
    } else {
      assert items[..0] == [] && done + [] == done;
    }
  }

  /** Item `k + 1`'s turn after the first item's call is item `k`'s turn in the rest. */
  lemma ShiftCalls(items: seq<ItemPayload>, k: int, done: seq<ItemArgs>, args: ItemArgs, vendorId: int, menuId: int)
    requires 0 < k < |items| && ValidateItem(items[0], vendorId, menuId) == Some(args)
    ensures items[k] == items[1..][k - 1]
    ensures done + Calls(items[..k], vendorId, menuId) == done + [args] + Calls(items[1..][..k - 1], vendorId, menuId)
  {
    CallsCons(items, k, vendorId, menuId, args);
    var c := Calls(items[1..][..k - 1], vendorId, menuId);
    assert done + ([args] + c) == done + [args] + c;
  }

  /** Item `k` of a created batch was accepted after the calls of the items before it,
      its call got its checked arguments, and entry `k` is the view of that call's row. */
  lemma {:induction false} RunBatchItemAt(items: seq<ItemPayload>, done: seq<ItemArgs>, k: int,
                                          vendorId: int, menuId: int, addItem: AddItemProc)
    requires RunBatch(items, done, vendorId, menuId, addItem).Created? && 0 <= k < |items|
    ensures var run := RunBatch(items, done, vendorId, menuId, addItem);
            var before := done + Calls(items[..k], vendorId, menuId);
            k < |run.views| && k < |run.written|
            && Accepted(items[k], before, vendorId, menuId, addItem)
            && Some(run.written[k]) == ValidateItem(items[k], vendorId, menuId)
            && addItem(before, run.written[k]) != None
            && run.views[k] == ItemToView(addItem(before, run.written[k]).value.row)
  {
    RunBatchHead(items, done, vendorId, menuId, addItem);
    var args := ValidateItem(items[0], vendorId, menuId).value;
    if k == 0 {
      assert items[..0] == [] && done + [] == done;
    } else {
      RunBatchItemAt(items[1..], done + [args], k - 1, vendorId, menuId, addItem);
      ShiftCalls(items, k, done, args, vendorId, menuId);
    }
  }

  /** The calls a created batch makes are the checked arguments of its items. */
  lemma {:induction false} RunBatchWrittenCalls(items: seq<ItemPayload>, done: seq<ItemArgs>, vendorId: int, menuId: int,
                                                addItem: AddItemProc)
    requires RunBatch(items, done, vendorId, menuId, addItem).Created?
    ensures RunBatch(items, done, vendorId, menuId, addItem).written == Calls(items, vendorId, menuId)
  {
    if items != [] {
      RunBatchHead(items, done, vendorId, menuId, addItem);
      var args := ValidateItem(items[0], vendorId, menuId).value;
      RunBatchWrittenCalls(items[1..], done + [args], vendorId, menuId, addItem);
    }
  }

  /** A created batch has as many entries as items. */
  lemma {:induction false} RunBatchCreatedLength(items: seq<ItemPayload>, done: seq<ItemArgs>, vendorId: int, menuId: int,
                                                 addItem: AddItemProc)
    requires RunBatch(items, done, vendorId, menuId, addItem).Created?
    ensures |RunBatch(items, done, vendorId, menuId, addItem).views| == |items|
    ensures |RunBatch(items, done, vendorId, menuId, addItem).written| == |items|
  {
    if items != [] {
      RunBatchHead(items, done, vendorId, menuId, addItem);
      var args := ValidateItem(items[0], vendorId, menuId).value;
      RunBatchCreatedLength(items[1..], done + [args], vendorId, menuId, addItem);
    }
  }

  /** A created batch in order: its calls are the checked arguments of its items, and
      entry `k` is the view of the row that item `k`'s call answered, made after the
      calls of the items before it. */
  predicate CreatedInOrder(items: seq<ItemPayload>, done: seq<ItemArgs>, views: seq<ItemView>, written: seq<ItemArgs>,
                           vendorId: int, menuId: int, addItem: AddItemProc)
  {
    |views| == |items| && |written| == |items| && written == Calls(items, vendorId, menuId)
    && forall k :: 0 <= k < |items| ==>
         Some(written[k]) == ValidateItem(items[k], vendorId, menuId)
         && addItem(done + Calls(items[..k], vendorId, menuId), written[k]) != None
         && views[k] == ItemToView(addItem(done + Calls(items[..k], vendorId, menuId), written[k]).value.row)
  }

  /** A created batch has one entry per input item, in input order. */
  lemma RunBatchCreatedInOrder(items: seq<ItemPayload>, done: seq<ItemArgs>, vendorId: int, menuId: int,
                               addItem: AddItemProc)
    requires RunBatch(items, done, vendorId, menuId, addItem).Created?
    ensures var run := RunBatch(items, done, vendorId, menuId, addItem);
            CreatedInOrder(items, done, run.views, run.written, vendorId, menuId, addItem)
  {
    RunBatchCreatedLength(items, done, vendorId, menuId, addItem);
    RunBatchWrittenCalls(items, done, vendorId, menuId, addItem);
    var run := RunBatch(items, done, vendorId, menuId, addItem);
    forall k | 0 <= k < |items|
      ensures Some(run.written[k]) == ValidateItem(items[k], vendorId, menuId)
      ensures addItem(done + Calls(items[..k], vendorId, menuId), run.written[k]) != None
      ensures run.views[k] == ItemToView(addItem(done + Calls(items[..k], vendorId, menuId), run.written[k]).value.row)
    {
      RunBatchItemAt(items, done, k, vendorId, menuId, addItem);
    }
  }

  /** A batch that does not go through fails on the first bad item or failed call;
      the message of a failed call is the fallback or the procedure's "ERROR…" text. */
  lemma {:induction false} RunBatchFailedMessage(items: seq<ItemPayload>, done: seq<ItemArgs>, vendorId: int, menuId: int,
                                                 addItem: AddItemProc)
    ensures var run := RunBatch(items, done, vendorId, menuId, addItem);
            run.Failed? ==> run.message == "Failed to add item" || StartsWith(run.message, "ERROR")
    ensures var run := RunBatch(items, done, vendorId, menuId, addItem);
            run.Invalid? ==> |run.written| < |items|
  {
    if items != [] {
      var v := ValidateItem(items[0], vendorId, menuId);
      if v != None {
        var outcome := ProcOutcome(addItem(done, v.value), "Failed to add item");
        if outcome.Failure? {
          ProcFailureMessage(addItem(done, v.value), "Failed to add item");
        } else {
          var rest := RunBatch(items[1..], done + [v.value], vendorId, menuId, addItem);
          RunBatchFailedMessage(items[1..], done + [v.value], vendorId, menuId, addItem);
          var run := Prepend([ItemToView(outcome.value)], [v.value], rest);
          assert RunBatch(items, done, vendorId, menuId, addItem) == run;
          assert run.Failed? ==> run.message == rest.message;
          assert run.Invalid? ==> |run.written| == 1 + |rest.written|;
        }
      }
    }
  }

  lemma PrependPrepend(v1: seq<ItemView>, w1: seq<ItemArgs>, v2: seq<ItemView>, w2: seq<ItemArgs>, rest: BatchRun)
    ensures Prepend(v1, w1, Prepend(v2, w2, rest)) == Prepend(v1 + v2, w1 + w2, rest)
  {
    match rest
    case Created(v, w) =>
      assert v1 + (v2 + v) == (v1 + v2) + v;
      assert w1 + (w2 + w) == (w1 + w2) + w;
    case Invalid(w) =>
      assert w1 + (w2 + w) == (w1 + w2) + w;
    case Failed(m) =>
  }

  /** `{n} item(s) created successfully`. */
  function CreatedMessage(n: nat): string {
    DecimalString(n) + " item(s) created successfully"
  }

  datatype BatchBody = BatchBody(message: string, items: seq<ItemView>)

  /**
   * The database session of one request: the calls whose effects are durable, and the
   * calls made since the last commit or rollback.
   */
  class Session {
    var committed: seq<ItemArgs>
    var pending: seq<ItemArgs>

    constructor ()
      ensures committed == [] && pending == []
    {
      committed := [];
      pending := [];
    }

    /** `db.session.execute(add_menu_item(...))`. */
    method Execute(args: ItemArgs)
      modifies this
      ensures pending == old(pending) + [args] && committed == old(committed)
    {
      pending := pending + [args];
    }

    /** `db.session.commit()`. */
    method Commit()
      modifies this
      ensures committed == old(committed) + old(pending) && pending == []
    {
      committed := committed + pending;
      pending := [];
    }

    /** `db.session.rollback()`. */
    method Rollback()
      modifies this
      ensures committed == old(committed) && pending == []
    {
      pending := [];
    }
  }

  /**
   * `add_menu_items`. After the ownership test, each item is checked and handed to
   * `add_menu_item` in turn. A failed call rolls everything back; the batch is
   * committed once, after the last item, so nothing is durable unless every item was
   * created. An item that fails validation returns at once, leaving the calls already
   * made uncommitted (and not rolled back).
   */
  method AddMenuItems(owns: bool, payload: Payload, vendorId: int, menuId: int,
                      addItem: AddItemProc, db: Session)
    returns (resp: Response<BatchBody>)
    requires db.pending == []
    modifies db
    ensures !owns ==> resp == Error(Forbidden, "Access denied") && db.committed == old(db.committed) && db.pending == []
    ensures owns && Batch(payload) == [] ==>
              resp == Error(BadRequest, "items array cannot be empty")
              && db.committed == old(db.committed) && db.pending == []
    ensures owns && Batch(payload) != [] ==>
              BatchEnds(RunBatch(Batch(payload), [], vendorId, menuId, addItem), resp, old(db.committed), db.committed, db.pending)
  {
    if !owns {
      return Error(Forbidden, "Access denied");
    }
    var items := Batch(payload);
    if items == [] {
      return Error(BadRequest, "items array cannot be empty");
    }
    resp := InsertItems(items, vendorId, menuId, addItem, db);
  }

  /**
   * How a non-empty batch ends, given how `RunBatch` says it goes: 201 with the created
   * views and every call committed; 400 at an invalid item with the earlier calls left
   * pending; 400 with the procedure's message and everything rolled back.
   */
  predicate BatchEnds(run: BatchRun, resp: Response<BatchBody>,
                      committedBefore: seq<ItemArgs>, committed: seq<ItemArgs>, pending: seq<ItemArgs>)
  {
    match run
    case Created(views, written) =>
      resp == Reply(201, BatchBody(CreatedMessage(|views|), views))
      && committed == committedBefore + written && pending == []
    case Invalid(written) =>
      resp == Error(BadRequest, "Each item requires name and price")
      && committed == committedBefore && pending == written
    case Failed(m) =>
      resp == Error(BadRequest, m) && committed == committedBefore && pending == []
  }

  /** The loop of `add_menu_items` over a non-empty batch, item by item; each call is
      made after the calls already pending in the transaction. */
  method InsertItems(items: seq<ItemPayload>, vendorId: int, menuId: int,
                     addItem: AddItemProc, db: Session)
    returns (resp: Response<BatchBody>)
    requires db.pending == []
    modifies db
    ensures BatchEnds(RunBatch(items, [], vendorId, menuId, addItem), resp, old(db.committed), db.committed, db.pending)
  {
    ghost var run := RunBatch(items, [], vendorId, menuId, addItem);
    var created: seq<ItemView> := [];
    var rest := items;
    PrependNothing(run);
    while rest != []
      invariant db.committed == old(db.committed)
      invariant run == Prepend(created, db.pending, RunBatch(rest, db.pending, vendorId, menuId, addItem))
      decreases |rest|
    {
      BatchStep(rest, vendorId, menuId, addItem, created, db.pending, run);
      var args := ValidateItem(rest[0], vendorId, menuId);
      if args == None {
        return Error(BadRequest, "Each item requires name and price");
      }
      var out := ProcOutcome(addItem(db.pending, args.value), "Failed to add item");
      db.Execute(args.value);
      if out.Failure? {
        db.Rollback();
        return Error(BadRequest, out.error);
      }
      created := created + [ItemToView(out.value)];
      rest := rest[1..];
    }
    assert created + [] == created && db.pending + [] == db.pending;
    db.Commit();
    resp := Reply(201, BatchBody(CreatedMessage(|created|), created));
  }

  /** One turn of the loop in `add_menu_items`: how the whole batch goes, given how the
      items before `rest` went (the calls `pending`) and what the first item of `rest`
      does after them. */
  lemma BatchStep(rest: seq<ItemPayload>, vendorId: int, menuId: int, addItem: AddItemProc,
                  created: seq<ItemView>, pending: seq<ItemArgs>, run: BatchRun)
    requires rest != []
    requires run == Prepend(created, pending, RunBatch(rest, pending, vendorId, menuId, addItem))
    ensures var args := ValidateItem(rest[0], vendorId, menuId);
            args == None ==> run == Invalid(pending)
    ensures var args := ValidateItem(rest[0], vendorId, menuId);
            args != None ==>
              var out := ProcOutcome(addItem(pending, args.value), "Failed to add item");
              (out.Failure? ==> run == Failed(out.error))
              && (out.Success? ==>
                    run == Prepend(created + [ItemToView(out.value)], pending + [args.value],
                                   RunBatch(rest[1..], pending + [args.value], vendorId, menuId, addItem)))
  {
    var args := ValidateItem(rest[0], vendorId, menuId);
    if args == None {
      assert pending + [] == pending;
    } else {
      var out := ProcOutcome(addItem(pending, args.value), "Failed to add item");
      if out.Success? {
        PrependPrepend(created, pending, [ItemToView(out.value)], [args.value],
                       RunBatch(rest[1..], pending + [args.value], vendorId, menuId, addItem));
      }
    }
  }

  /** Nothing put in front of a batch leaves it as it is. */
  lemma PrependNothing(run: BatchRun)
    ensures Prepend([], [], run) == run
  {
    match run
    case Created(v, w) => assert [] + v == v && [] + w == w;
    case Invalid(w) => assert [] + w == w;
    case Failed(m) =>
  }

  // ---------------------------------------------------------------- update / delete menu item

  /** The partial update `update_menu_item` receives: every field may be left out. */
  datatype ItemPatch = ItemPatch(
    vendorId: int, menuId: int, itemId: int, name: Option<string>, description: Option<string>,
    price: Option<Cents>, available: Option<bool>, preparationTimeMinutes: Option<int>,
    imageUrl: Option<string>)

  /**
   * `update_menu_item`: no field is checked here; the request's fields go to the
   * procedure as they are. The route commits before reading the answer.
   */
  function UpdateMenuItem(owns: bool, patch: ItemPatch,
                          updateItem: ItemPatch -> Option<ProcRow<ItemRow>>): (h: Handled<Message<ItemView>>)
    ensures !owns ==> h == Handled(Error(Forbidden, "Access denied"), false)
    ensures h.committed <==> owns
    ensures owns ==>
              var out := ProcOutcome(updateItem(patch), "Failed to update item");
              (out.Failure? ==> h.response == Error(BadRequest, out.error))
              && (out.Success? ==> h.response == Reply(200, Message("Menu item updated successfully", ItemToView(out.value))))
  {
    if !owns then Handled(Error(Forbidden, "Access denied"), false)
    else
      match ProcOutcome(updateItem(patch), "Failed to update item")
      case Failure(m) => Handled(Error(BadRequest, m), true)
      case Success(row) => Handled(Reply(200, Message("Menu item updated successfully", ItemToView(row))), true)
  }

  datatype DeletedRow = DeletedRow(deletedItemId: int, deletedItemName: string)

  /** `delete_menu_item`: the same shape, answering the deleted item's id and name. */
  function DeleteMenuItem(owns: bool, vendorId: int, menuId: int, itemId: int,
                          deleteItem: (int, int, int) -> Option<ProcRow<DeletedRow>>): (h: Handled<Message<DeletedRow>>)
    ensures !owns ==> h == Handled(Error(Forbidden, "Access denied"), false)
    ensures h.committed <==> owns
    ensures owns ==>
              var out := ProcOutcome(deleteItem(vendorId, menuId, itemId), "Failed to delete item");
              (out.Failure? ==> h.response == Error(BadRequest, out.error))
              && (out.Success? ==> h.response == Reply(200, Message("Menu item deleted successfully", out.value)))
  {
    if !owns then Handled(Error(Forbidden, "Access denied"), false)
    else
      match ProcOutcome(deleteItem(vendorId, menuId, itemId), "Failed to delete item")
      case Failure(m) => Handled(Error(BadRequest, m), true)
      case Success(row) => Handled(Reply(200, Message("Menu item deleted successfully", row)), true)
  }

  // ---------------------------------------------------------------- get_vendor

  /** One row of `menus LEFT JOIN menu_items`. */
  datatype JoinRow = JoinRow(menuId: Option<int>, menuTitle: Option<string>, isActive: Option<bool>, item: ItemRow)


  datatype MenuHead = MenuHead(id: int, title: Option<string>, isActive: Option<bool>)

  datatype MenuInfo = MenuInfo(id: int, title: Option<string>, isActive: Option<bool>, items: seq<ItemView>)

  function HeadOf(row: JoinRow): MenuHead
    requires row.menuId != None
  {
    MenuHead(row.menuId.value, row.menuTitle, row.isActive)
  }

  /** The menu taken from the first row with a (truthy) menu id; None when there is none. */
  function FirstMenu(rows: seq<JoinRow>): (r: Option<MenuHead>)
    ensures r == None <==> forall k :: 0 <= k < |rows| ==> !Truthy(rows[k].menuId)
    ensures r != None ==> exists k :: 0 <= k < |rows| && Truthy(rows[k].menuId) && r.value == HeadOf(rows[k])
                                      && forall j :: 0 <= j < k ==> !Truthy(rows[j].menuId)
  {
    if rows == [] then None
    else
      var init := rows[..|rows| - 1];
      var r := FirstMenu(init);
      assert forall k :: 0 <= k < |init| ==> init[k] == rows[k];
      if r != None then r
      else if Truthy(rows[|rows| - 1].menuId) then Some(HeadOf(rows[|rows| - 1]))
      else None
  }

  /** The items of the rows that carry a (truthy) item id, one per such row, in row order. */
  function ItemsOf(rows: seq<JoinRow>): (r: seq<ItemView>)
    ensures |r| <= |rows|
  {
    if rows == [] then []
    else
      var last := rows[|rows| - 1];
      ItemsOf(rows[..|rows| - 1]) + (if Truthy(last.item.itemId) then [ItemToView(last.item)] else [])
  }

  /** Items of consecutive row runs concatenate. */
  lemma {:induction false} ItemsOfAppend(a: seq<JoinRow>, b: seq<JoinRow>)
    ensures ItemsOf(a + b) == ItemsOf(a) + ItemsOf(b)
    decreases |b|
  {
    if b != [] {
      var b' := b[..|b| - 1];
      assert (a + b)[..|a + b| - 1] == a + b';
      ItemsOfAppend(a, b');
    } else {
      assert a + b == a;
    }
  }

  /** Wherever it stands, a row whose item id is NULL or 0 (a menu without items, from the
      LEFT JOIN) contributes nothing, and any other row contributes its own item, in its
      place. */
  lemma ItemsOfRow(a: seq<JoinRow>, row: JoinRow, b: seq<JoinRow>)
    ensures !Truthy(row.item.itemId) ==> ItemsOf(a + [row] + b) == ItemsOf(a + b)
    ensures Truthy(row.item.itemId) ==> ItemsOf(a + [row] + b) == ItemsOf(a) + [ItemToView(row.item)] + ItemsOf(b)
  {
    ItemsOfAppend(a + [row], b);
    ItemsOfAppend(a, [row]);
    ItemsOfAppend(a, b);
    assert [row][..0] == [];
  }

  /** When every row carries an item, there is exactly one item per row, in row order. */
  lemma {:induction false} ItemsOfEveryRow(rows: seq<JoinRow>)
    requires forall k :: 0 <= k < |rows| ==> Truthy(rows[k].item.itemId)
    ensures |ItemsOf(rows)| == |rows|
    ensures forall k :: 0 <= k < |rows| ==> ItemsOf(rows)[k] == ItemToView(rows[k].item)
  {
    if rows != [] {
      var init := rows[..|rows| - 1];
      assert forall k :: 0 <= k < |init| ==> init[k] == rows[k];
      ItemsOfEveryRow(init);
    }
  }

  /** The menu object of `get_vendor`: present only when a menu row was found, and then
      carrying every item. */
  function MenuOf(rows: seq<JoinRow>): Option<MenuInfo> {
    match FirstMenu(rows)
    case None => None
    case Some(h) => Some(MenuInfo(h.id, h.title, h.isActive, ItemsOf(rows)))
  }

  /**
   * The loop of `get_vendor`: `menu_info` is set from the first row with a menu id and
   * never again; each row with an item id appends its item; the items are attached
   * to the menu after the loop, if there is one.
   */
  method FoldMenuRows(rows: seq<JoinRow>) returns (menu: Option<MenuInfo>)
    ensures menu == MenuOf(rows)
    ensures menu == None <==> forall k :: 0 <= k < |rows| ==> !Truthy(rows[k].menuId)
  {
    var head: Option<MenuHead> := None;
    var items: seq<ItemView> := [];
    for i := 0 to |rows|
      invariant head == FirstMenu(rows[..i])
      invariant items == ItemsOf(rows[..i])
    {
      assert rows[..i + 1][..i] == rows[..i];
      var row := rows[i];
      if head == None && Truthy(row.menuId) {
        head := Some(HeadOf(row));
      }
      if Truthy(row.item.itemId) {
        items := items + [ItemToView(row.item)];
      }
    }
    assert rows[..|rows|] == rows;
    if head == None {
      menu := None;
    } else {
      menu := Some(MenuInfo(head.value.id, head.value.title, head.value.isActive, items));
    }
  }

  datatype VendorBody = VendorBody(vendor: seq<Column>, menu: Option<MenuInfo>)

  /** `get_vendor` (public): 404 for an unknown vendor, else the vendor's columns and its
      folded menu. */
  method GetVendor(vendor: Option<seq<Column>>, rows: seq<JoinRow>) returns (resp: Response<VendorBody>)
    ensures vendor == None ==> resp == Error(NotFound, "Vendor not found")
    ensures vendor != None ==> resp == Reply(200, VendorBody(JsonRow(vendor.value), MenuOf(rows)))
  {
    if vendor == None {
      return Error(NotFound, "Vendor not found");
    }
    var menu := FoldMenuRows(rows);
    var v := RowToDict(vendor);
    resp := Reply(200, VendorBody(v.value, menu));
  }

  // ---------------------------------------------------------------- get_vendor_orders

  /** `request.args.get("limit", 50, type=int)`: absent or not an integer reads as 50. */
  function LimitArg(raw: Option<string>, parseInt: string -> Option<int>): (limit: int)
    ensures raw == None ==> limit == 50
    ensures raw != None && parseInt(raw.value) == None ==> limit == 50
    ensures raw != None && parseInt(raw.value) != None ==> limit == parseInt(raw.value).value
  {
    if raw == None then 50
    else match parseInt(raw.value)
      case None => 50
      case Some(n) => n
  }

  /** An optional ISO date argument: absent or empty means no bound; anything else must
      parse (`parseDate` stands for `datetime.fromisoformat(s.replace("Z", ""))`). */
  function DateArg(raw: Option<string>, parseDate: string -> Option<Timestamp>): (r: Option<Option<Timestamp>>)
    ensures raw == None || raw.value == "" ==> r == Some(None)
    ensures raw != None && raw.value != "" ==> r == (if parseDate(raw.value) == None then None else Some(parseDate(raw.value)))
  {
    if raw == None || raw.value == "" then Some(None)
    else match parseDate(raw.value)
      case None => None
      case Some(t) => Some(Some(t))
  }

  datatype OrdersQuery = OrdersQuery(vendorId: int, status: Option<string>, dateFrom: Option<Timestamp>,
                                     dateTo: Option<Timestamp>, limit: int)

  datatype OrdersFilters = OrdersFilters(status: Option<string>, dateFrom: Option<string>,
                                         dateTo: Option<string>, limit: int)

  datatype OrdersBody = OrdersBody(orders: seq<seq<Column>>, total: int, filters: OrdersFilters)

  /**
   * `get_vendor_orders`. Ownership (403), then the limit, which must lie in 1..100,
   * then `date_from`, then `date_to`. The procedure is asked only with a limit in
   * range; the answer lists its rows as dictionaries and `total` is their number.
   */
  method GetVendorOrders(owns: bool, vendorId: int, status: Option<string>, limitRaw: Option<string>,
                         dateFrom: Option<string>, dateTo: Option<string>,
                         parseInt: string -> Option<int>, parseDate: string -> Option<Timestamp>,
                         getOrders: OrdersQuery -> seq<seq<Column>>)
    returns (resp: Response<OrdersBody>)
    ensures !owns ==> resp == Error(Forbidden, "Access denied")
    ensures owns && !(1 <= LimitArg(limitRaw, parseInt) <= 100) ==>
              resp == Error(BadRequest, "Limit must be between 1 and 100")
    ensures owns && 1 <= LimitArg(limitRaw, parseInt) <= 100 && DateArg(dateFrom, parseDate) == None ==>
              resp == Error(BadRequest, "Invalid date_from format. Use ISO format")
    ensures owns && 1 <= LimitArg(limitRaw, parseInt) <= 100 && DateArg(dateFrom, parseDate) != None
            && DateArg(dateTo, parseDate) == None ==>
              resp == Error(BadRequest, "Invalid date_to format. Use ISO format")
    ensures resp.Reply? <==> owns && 1 <= LimitArg(limitRaw, parseInt) <= 100
                             && DateArg(dateFrom, parseDate) != None && DateArg(dateTo, parseDate) != None
    ensures resp.Reply? ==>
              var limit := LimitArg(limitRaw, parseInt);
              var rows := getOrders(OrdersQuery(vendorId, status, DateArg(dateFrom, parseDate).value,
                                                DateArg(dateTo, parseDate).value, limit));
              resp.status == 200
              && |resp.body.orders| == |rows| == resp.body.total
              && (forall k :: 0 <= k < |rows| ==> resp.body.orders[k] == JsonRow(rows[k]))
              && resp.body.filters == OrdersFilters(status, dateFrom, dateTo, limit)
  {
    if !owns {
      return Error(Forbidden, "Access denied");
    }
    var limit := LimitArg(limitRaw, parseInt);
    if limit < 1 || limit > 100 {
      return Error(BadRequest, "Limit must be between 1 and 100");
    }
    var from := DateArg(dateFrom, parseDate);
    if from == None {
      return Error(BadRequest, "Invalid date_from format. Use ISO format");
    }
    var to := DateArg(dateTo, parseDate);
    if to == None {
      return Error(BadRequest, "Invalid date_to format. Use ISO format");
    }
    var rows := getOrders(OrdersQuery(vendorId, status, from.value, to.value, limit));
    var orders := RowsToDicts(rows);
    resp := Reply(200, OrdersBody(orders, |orders|, OrdersFilters(status, dateFrom, dateTo, limit)));
  }

  // ---------------------------------------------------------------- get_order_details

  datatype OrderDetails = OrderDetails(order: seq<Column>, items: seq<seq<Column>>, itemsCount: int)

  /** `get_order_details`: 404 unless the order belongs to this vendor; else the order's
      columns and its lines as dictionaries, with their count. */
  method GetOrderDetails(owns: bool, order: Option<seq<Column>>, itemRows: seq<seq<Column>>)
    returns (resp: Response<OrderDetails>)
    ensures !owns ==> resp == Error(Forbidden, "Access denied")
    ensures owns && order == None ==> resp == Error(NotFound, "Order not found")
    ensures owns && order != None ==>
              resp.Reply? && resp.status == 200 && resp.body.order == JsonRow(order.value)
              && |resp.body.items| == |itemRows| == resp.body.itemsCount
              && forall k :: 0 <= k < |itemRows| ==> resp.body.items[k] == JsonRow(itemRows[k])
  {
    if !owns {
      return Error(Forbidden, "Access denied");
    }
    if order == None {
      return Error(NotFound, "Order not found");
    }
    var items := RowsToDicts(itemRows);
    var o := RowToDict(order);
    resp := Reply(200, OrderDetails(o.value, items, |items|));
  }

  // ---------------------------------------------------------------- update_order_status

  datatype StatusArgs = StatusArgs(vendorId: int, orderId: int, newStatus: string, estimatedReadyAt: Option<Timestamp>)

  datatype StatusRow = StatusRow(orderId: int, oldStatus: string, newStatus: string, estimatedReadyAt: Option<Timestamp>)

  /**
   * `update_order_status`. Ownership (403), then a status that is not blank once
   * stripped (400 "status is required"), then an `estimated_ready_at` that, when given
   * and not empty, parses (400 "Invalid estimated_ready_at format"). Only then is the
   * procedure called, with the stripped status; the route commits before reading its
   * answer. Which transitions are legal is the procedure's business, not this route's.
   */
  function UpdateOrderStatus(owns: bool, vendorId: int, orderId: int, status: Option<string>,
                             estimatedReadyAt: Option<string>, parseDate: string -> Option<Timestamp>,
                             updateStatus: StatusArgs -> Option<ProcRow<StatusRow>>): (h: Handled<Message<StatusRow>>)
    ensures !owns ==> h == Handled(Error(Forbidden, "Access denied"), false)
    ensures owns && Stripped(status) == [] ==> h == Handled(Error(BadRequest, "status is required"), false)
    ensures owns && Stripped(status) != [] && DateArg(estimatedReadyAt, parseDate) == None ==>
              h == Handled(Error(BadRequest, "Invalid estimated_ready_at format"), false)
    ensures h.committed <==> owns && Stripped(status) != [] && DateArg(estimatedReadyAt, parseDate) != None
    ensures h.committed ==>
              var args := StatusArgs(vendorId, orderId, Stripped(status), DateArg(estimatedReadyAt, parseDate).value);
              var out := ProcOutcome(updateStatus(args), "Failed to update status");
              (out.Failure? ==> h.response == Error(BadRequest, out.error))
              && (out.Success? ==> h.response == Reply(200, Message("Order status updated successfully", out.value)))
  {
    if !owns then Handled(Error(Forbidden, "Access denied"), false)
    else
      var s := Stripped(status);
      if s == [] then Handled(Error(BadRequest, "status is required"), false)
      else
        match DateArg(estimatedReadyAt, parseDate)
        case None => Handled(Error(BadRequest, "Invalid estimated_ready_at format"), false)
        case Some(ready) =>
          match ProcOutcome(updateStatus(StatusArgs(vendorId, orderId, s, ready)), "Failed to update status")
          case Failure(m) => Handled(Error(BadRequest, m), true)
          case Success(row) => Handled(Reply(200, Message("Order status updated successfully", row)), true)
  }

  /** The status handed to the procedure is never blank and never padded. */
  lemma StatusSentIsStripped(status: string)
    requires !Blank(status)
    ensures Stripped(Some(status)) != [] && Strip(Stripped(Some(status))) == Stripped(Some(status))
  {
    var t := Strip(status);
    assert Stripped(Some(status)) == t;
    StripIdempotent(status);
  }

  // ---------------------------------------------------------------- get_vendor_stats

  /** The answer when the analytics view has no row for the vendor. */
  const ZeroStats: seq<Column> := [
    Column("total_orders", Int(0)),
    Column("total_revenue", Number(0)),
    Column("avg_order_value", Number(0)),
    Column("completed_orders", Int(0)),
    Column("cancelled_orders", Int(0)),
    Column("pending_orders", Int(0))
  ]

  /** `get_vendor_stats`: a vendor without analytics gets all-zero counts and 0.0
      amounts, not an error; otherwise the view's row as a dictionary. */
  method GetVendorStats(owns: bool, stats: Option<seq<Column>>) returns (resp: Response<seq<Column>>)
    ensures !owns ==> resp == Error(Forbidden, "Access denied")
    ensures owns ==> resp.Reply? && resp.status == 200
    ensures owns && stats == None ==> resp.body == ZeroStats
    ensures owns && stats != None ==> resp.body == JsonRow(stats.value)
    ensures owns ==> forall k :: 0 <= k < |resp.body| ==> Serializable(resp.body[k].value)
  {
    if !owns {
      return Error(Forbidden, "Access denied");
    }
    if stats == None {
      return Reply(200, ZeroStats);
    }
    var d := RowToDict(stats);
    resp := Reply(200, d.value);
  }

  /** Every statistic in the default answer is zero. */
  lemma ZeroStatsAreZero()
    ensures |ZeroStats| == 6
    ensures forall k :: 0 <= k < |ZeroStats| ==> ZeroStats[k].value in {Int(0), Number(0)}
  {
  }
}
