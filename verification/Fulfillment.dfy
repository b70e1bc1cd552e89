/**
 The fulfillments of one order (saleor/order/actions.py). Every table is a sequence whose index is the primary key;
 a deleted row leaves `None` behind. There is one object per row, shared by everyone who holds it.
 */
module Fulfillment {

  import opened Wrappers

  datatype Status = Fulfilled | Waiting | Refunded | Returned | RefundedAndReturned | Replaced

  /** `fulfilled` is `quantity_fulfilled`; `price` is `unit_price_gross_amount`. */
  datatype OrderLine = OrderLine(quantity: nat, fulfilled: int, price: real) {
    /** `quantity_unfulfilled`. */
    function Unfulfilled(): int { quantity - fulfilled }
  }

  /** A row of the fulfillment line table. */
  datatype Item = Item(fulfillment: nat, line: nat, stock: Option<nat>, quantity: int)

  datatype Store = Store(lines: seq<OrderLine>, fulfillments: seq<Option<Status>>, items: seq<Option<Item>>)

  /** `OrderLineInfo` and `OrderFulfillmentLineInfo`: a quantity of an order line. */
  datatype LineRequest = LineRequest(line: nat, quantity: int)

  /** `FulfillmentLineData`: a quantity of a fulfillment line. */
  datatype ItemRequest = ItemRequest(item: nat, quantity: int)

  /** What is to be fulfilled from one warehouse. `enough` says whether `decrease_stock` succeeds there. */
  datatype Batch = Batch(warehouse: nat, requests: seq<LineRequest>, enough: bool)

  /** The first stock of the variant of an order line in a warehouse, by warehouse and order line. */
  type Stocks = map<(nat, nat), nat>

  function StockOf(stocks: Stocks, warehouse: nat, line: nat): Option<nat> {
    if (warehouse, line) in stocks then Some(stocks[(warehouse, line)]) else None
  }

  function Min(a: int, b: int): int {
    if b < a then b else a
  }

  predicate LinesExist(s: Store, requests: seq<LineRequest>) {
    forall r :: r in requests ==> r.line < |s.lines|
  }

  predicate ItemsKnown(items: seq<Option<Item>>, requests: seq<ItemRequest>) {
    forall r :: r in requests ==> r.item < |items|
  }

  predicate Exists(s: Store, fulfillment: nat) {
    fulfillment < |s.fulfillments| && s.fulfillments[fulfillment].Some?
  }

  predicate HasStatus(s: Store, item: Item, status: Status) {
    item.fulfillment < |s.fulfillments| && s.fulfillments[item.fulfillment] == Some(status)
  }

  // --- Creating and approving ---

  /** A requested order line has no stock in the warehouse. */
  predicate Lacks(b: Batch, stocks: Stocks, r: LineRequest) {
    r.quantity > 0 && StockOf(stocks, b.warehouse, r.line).None?
  }

  predicate LacksStock(b: Batch, stocks: Stocks) {
    exists r :: r in b.requests && Lacks(b, stocks, r)
  }

  predicate WantsAnything(b: Batch) {
    exists r :: r in b.requests && r.quantity > 0
  }

  /** `_create_fulfillment_lines` raises `InsufficientStock` for this warehouse. */
  predicate Insufficient(b: Batch, approved: bool, stocks: Stocks, exceed: bool) {
    (!exceed && LacksStock(b, stocks)) || (approved && WantsAnything(b) && !b.enough)
  }

  function Increase(lines: seq<OrderLine>, line: nat, more: int): (r: seq<OrderLine>)
    requires line < |lines|
    ensures |r| == |lines|
  {
    lines[line := lines[line].(fulfilled := lines[line].fulfilled + more)]
  }

  /** `_increase_order_line_quantity` for the requests with a positive quantity. */
  function IncreaseAll(lines: seq<OrderLine>, requests: seq<LineRequest>): (r: seq<OrderLine>)
    requires forall q :: q in requests ==> q.line < |lines|
    ensures |r| == |lines|
    decreases |requests|
  {
    if requests == [] then lines
    else
      var q := requests[0];
      IncreaseAll(if q.quantity > 0 then Increase(lines, q.line, q.quantity) else lines, requests[1..])
  }

  /** The fulfillment lines for the requests with a positive quantity. */
  function NewItems(fulfillment: nat, b: Batch, stocks: Stocks): seq<Option<Item>>
    decreases |b.requests|
  {
    if b.requests == [] then []
    else
      var q := b.requests[0];
      var rest := NewItems(fulfillment, b.(requests := b.requests[1..]), stocks);
      if q.quantity > 0 then [Some(Item(fulfillment, q.line, StockOf(stocks, b.warehouse, q.line), q.quantity))] + rest
      else rest
  }

  function AddFulfillment(s: Store, status: Status): Store {
    s.(fulfillments := s.fulfillments + [Some(status)])
  }

  function CreateBatch(s: Store, b: Batch, status: Status, stocks: Stocks): (r: Store)
    requires LinesExist(s, b.requests)
    ensures |r.lines| == |s.lines|
  {
    Store(IncreaseAll(s.lines, b.requests), s.fulfillments + [Some(status)],
          s.items + NewItems(|s.fulfillments|, b, stocks))
  }

  predicate BatchesExist(s: Store, batches: seq<Batch>) {
    forall b :: b in batches ==> LinesExist(s, b.requests)
  }

  function CreateBatches(s: Store, batches: seq<Batch>, status: Status, stocks: Stocks): (r: Store)
    requires BatchesExist(s, batches)
    ensures |r.lines| == |s.lines|
    decreases |batches|
  {
    if batches == [] then s
    else CreateBatches(CreateBatch(s, batches[0], status, stocks), batches[1..], status, stocks)
  }

  function StatusFor(approved: bool): Status {
    if approved then Fulfilled else Waiting
  }

  predicate AnyInsufficient(batches: seq<Batch>, approved: bool, stocks: Stocks, exceed: bool) {
    exists b :: b in batches && Insufficient(b, approved, stocks, exceed)
  }

  /** `create_fulfillments`. */
  function Create(s: Store, batches: seq<Batch>, approved: bool, stocks: Stocks, exceed: bool): Store
    requires BatchesExist(s, batches)
  {
    if AnyInsufficient(batches, approved, stocks, exceed) then s
    else CreateBatches(s, batches, StatusFor(approved), stocks)
  }

  predicate MissesStockAt(row: Option<Item>, fulfillment: nat) {
    row.Some? && row.value.fulfillment == fulfillment && row.value.stock.None?
  }

  predicate MissesStock(s: Store, fulfillment: nat) {
    exists k :: 0 <= k < |s.items| && MissesStockAt(s.items[k], fulfillment)
  }

  /** `approve_fulfillment`; `enough` says whether `decrease_stock` succeeds. */
  function Approve(s: Store, fulfillment: nat, exceed: bool, enough: bool): Store
    requires Exists(s, fulfillment)
  {
    if (!exceed && MissesStock(s, fulfillment)) || !enough then s
    else s.(fulfillments := s.fulfillments[fulfillment := Some(Fulfilled)])
  }

  // --- Cancelling a fulfillment that waits for approval ---

  /** `loaded` lists the fulfillment lines of the fulfillment once each, in the order the database returns them. */
  ghost predicate Loads(s: Store, fulfillment: nat, loaded: seq<nat>) {
    && (forall k :: k in loaded <==>
        0 <= k < |s.items| && s.items[k].Some? && s.items[k].value.fulfillment == fulfillment)
    && forall a, b :: 0 <= a < b < |loaded| ==> loaded[a] != loaded[b]
  }

  predicate AllPresent(items: seq<Option<Item>>, loaded: seq<nat>) {
    forall k :: k in loaded ==> k < |items| && items[k].Some?
  }

  function Rows(items: seq<Option<Item>>, loaded: seq<nat>): (r: seq<Item>)
    requires AllPresent(items, loaded)
    ensures |r| == |loaded|
    ensures forall a :: 0 <= a < |r| ==> loaded[a] in loaded && Some(r[a]) == items[loaded[a]]
  {
    seq(|loaded|, a requires 0 <= a < |loaded| => assert loaded[a] in loaded; items[loaded[a]].value)
  }

  /** An order line that was loaded for one fulfillment line, with its lowered `quantity_fulfilled`. */
  datatype Copy = Copy(line: nat, fulfilled: int)

  function Copies(lines: seq<OrderLine>, rows: seq<Item>): (r: seq<Copy>)
    requires forall i :: i in rows ==> i.line < |lines|
    ensures |r| == |rows|
  {
    if rows == [] then []
    else
      var n := |rows| - 1;
      var last := rows[n];
      Copies(lines, rows[..n]) + [Copy(last.line, lines[last.line].fulfilled - last.quantity)]
  }

  /** The value `bulk_update` writes to a row: the first matching `WHEN` wins. */
  function Written(copies: seq<Copy>, line: nat): Option<int> {
    if copies == [] then None
    else if copies[0].line == line then Some(copies[0].fulfilled)
    else Written(copies[1..], line)
  }

  function BulkUpdate(lines: seq<OrderLine>, copies: seq<Copy>): (r: seq<OrderLine>)
    ensures |r| == |lines|
    ensures forall l :: 0 <= l < |r| ==>
      r[l] == (if Written(copies, l).Some? then lines[l].(fulfilled := Written(copies, l).value) else lines[l])
  {
    seq(|lines|, l requires 0 <= l < |lines| =>
      if Written(copies, l).Some? then lines[l].(fulfilled := Written(copies, l).value) else lines[l])
  }

  function WithoutFulfillment(items: seq<Option<Item>>, fulfillment: nat): (r: seq<Option<Item>>)
    ensures |r| == |items|
    ensures forall k :: 0 <= k < |r| ==>
      r[k] == if items[k].Some? && items[k].value.fulfillment == fulfillment then None else items[k]
  {
    seq(|items|, k requires 0 <= k < |items| =>
      if items[k].Some? && items[k].value.fulfillment == fulfillment then None else items[k])
  }

  /** `cancel_waiting_fulfillment`. */
  function CancelWaiting(s: Store, fulfillment: nat, loaded: seq<nat>): Store
    requires Exists(s, fulfillment)
    requires AllPresent(s.items, loaded)
    requires forall i :: i in Rows(s.items, loaded) ==> i.line < |s.lines|
  {
    Store(BulkUpdate(s.lines, Copies(s.lines, Rows(s.items, loaded))), s.fulfillments[fulfillment := None],
          WithoutFulfillment(s.items, fulfillment))
  }

  // --- Moving to another fulfillment ---

  /** `_move_order_lines_to_target_fulfillment` for one request. */
  function MoveLine(s: Store, q: LineRequest, target: nat): (r: Store)
    requires q.line < |s.lines|
    ensures |r.lines| == |s.lines|
  {
    var moved := Min(s.lines[q.line].Unfulfilled(), q.quantity);
    s.(lines := Increase(s.lines, q.line, moved), items := s.items + [Some(Item(target, q.line, None, moved))])
  }

  function MoveLines(s: Store, requests: seq<LineRequest>, target: nat): (r: Store)
    requires LinesExist(s, requests)
    ensures |r.lines| == |s.lines|
    decreases |requests|
  {
    if requests == [] then s else MoveLines(MoveLine(s, requests[0], target), requests[1..], target)
  }

  /** `_get_fulfillment_line_if_exists`: the first listed row of the order line and the stock. */
  function FindItem(items: seq<Option<Item>>, listed: seq<nat>, line: nat, stock: Option<nat>): (r: Option<nat>)
    ensures r.Some? ==> r.value in listed && r.value < |items| && items[r.value].Some? &&
                        items[r.value].value.line == line && items[r.value].value.stock == stock
    ensures r.None? ==> forall k :: k in listed && k < |items| && items[k].Some? ==>
      items[k].value.line != line || items[k].value.stock != stock
  {
    if listed == [] then None
    else
      var k := listed[0];
      if k < |items| && items[k].Some? && items[k].value.line == line && items[k].value.stock == stock then Some(k)
      else FindItem(items, listed[1..], line, stock)
  }

  /** The objects of the fulfillment lines, and those that were found empty. */
  datatype Moving = Moving(items: seq<Option<Item>>, emptied: set<nat>)

  function Add(items: seq<Option<Item>>, k: nat, more: int): (r: seq<Option<Item>>)
    requires k < |items| && items[k].Some?
    ensures |r| == |items|
  {
    items[k := Some(items[k].value.(quantity := items[k].value.quantity + more))]
  }

  /** The fulfillment lines after `moved` came to the target from a line of this order line and stock. */
  function Gain(items: seq<Option<Item>>, listed: seq<nat>, source: Item, target: nat,
                moved: int): (r: seq<Option<Item>>)
    ensures |items| <= |r|
  {
    var found := FindItem(items, listed, source.line, source.stock);
    if found.Some? then Add(items, found.value, moved)
    else if moved > 0 then items + [Some(Item(target, source.line, source.stock, moved))]
    else items
  }

  /** `_move_fulfillment_lines_to_target_fulfillment` for one request. */
  function MoveItem(m: Moving, q: ItemRequest, listed: seq<nat>, target: nat): (r: Moving)
    requires q.item < |m.items|
    ensures |m.items| <= |r.items|
  {
    if m.items[q.item].None? then m
    else
      var source := m.items[q.item].value;
      var moved := Min(source.quantity, q.quantity);
      var after := Gain(m.items, listed, source, target, moved);
      assert after[q.item].Some?;
      var left := Add(after, q.item, -moved);
      Moving(left, if left[q.item].value.quantity == 0 then m.emptied + {q.item} else m.emptied)
  }

  function MoveItems(m: Moving, requests: seq<ItemRequest>, listed: seq<nat>, target: nat): (r: Moving)
    requires ItemsKnown(m.items, requests)
    ensures |m.items| <= |r.items|
    decreases |requests|
  {
    if requests == [] then m else MoveItems(MoveItem(m, requests[0], listed, target), requests[1..], listed, target)
  }

  function Delete(items: seq<Option<Item>>, gone: set<nat>): (r: seq<Option<Item>>)
    ensures |r| == |items|
    ensures forall k :: 0 <= k < |r| ==> r[k] == if k in gone then None else items[k]
  {
    seq(|items|, k requires 0 <= k < |items| => if k in gone then None else items[k])
  }

  /** `_move_fulfillment_lines_to_target_fulfillment`; `listed` is `lines_in_target_fulfillment`. */
  function Transfer(items: seq<Option<Item>>, requests: seq<ItemRequest>, listed: seq<nat>, target: nat)
    : (r: seq<Option<Item>>)
    requires ItemsKnown(items, requests)
    ensures |items| <= |r|
  {
    var m := MoveItems(Moving(items, {}), requests, listed, target);
    Delete(m.items, m.emptied)
  }

  /** The keys of the rows from `a` up to `b`. */
  function Keys(a: nat, b: nat): (r: seq<nat>)
    requires a <= b
    ensures |r| == b - a
    ensures forall k :: k in r <==> a <= k < b
  {
    if a == b then [] else Keys(a, b - 1) + [b - 1]
  }

  /** Both moves into the fulfillment `target`. */
  function MoveBoth(s: Store, lineRequests: seq<LineRequest>, itemRequests: seq<ItemRequest>, target: nat): (r: Store)
    requires LinesExist(s, lineRequests)
    requires ItemsKnown(s.items, itemRequests)
    ensures |r.lines| == |s.lines| && |s.items| <= |r.items|
  {
    var moved := MoveLines(s, lineRequests, target);
    LinesMoved(s, lineRequests, target);
    moved.(items := Transfer(moved.items, itemRequests, Keys(|s.items|, |moved.items|), target))
  }

  lemma {:induction false} LinesMoved(s: Store, requests: seq<LineRequest>, target: nat)
    requires LinesExist(s, requests)
    ensures MoveLines(s, requests, target).fulfillments == s.fulfillments
    ensures s.items <= MoveLines(s, requests, target).items
    decreases |requests|
  {
    if requests != [] {
      LinesMoved(MoveLine(s, requests[0], target), requests[1..], target);
    }
  }

  predicate IsEmpty(s: Store, fulfillment: nat) {
    forall k :: 0 <= k < |s.items| && s.items[k].Some? ==> s.items[k].value.fulfillment != fulfillment
  }

  predicate Droppable(s: Store, fulfillment: nat)
    requires fulfillment < |s.fulfillments|
  {
    && IsEmpty(s, fulfillment)
    && (s.fulfillments[fulfillment] == Some(Fulfilled) || s.fulfillments[fulfillment] == Some(Waiting))
  }

  /** Fulfillments without lines are deleted when they are fulfilled or wait for approval. */
  function DropEmpty(s: Store): (r: Store)
    ensures r.lines == s.lines && r.items == s.items && |r.fulfillments| == |s.fulfillments|
    ensures forall f :: 0 <= f < |r.fulfillments| ==>
      r.fulfillments[f] == (if Droppable(s, f) then None else s.fulfillments[f])
  {
    s.(fulfillments := seq(|s.fulfillments|, f requires 0 <= f < |s.fulfillments| =>
      if Droppable(s, f) then None else s.fulfillments[f]))
  }

  /** `create_refund_fulfillment`. */
  function Refund(s: Store, lineRequests: seq<LineRequest>, itemRequests: seq<ItemRequest>): Store
    requires LinesExist(s, lineRequests)
    requires ItemsKnown(s.items, itemRequests)
  {
    DropEmpty(MoveBoth(AddFulfillment(s, Refunded), lineRequests, itemRequests, |s.fulfillments|))
  }

  /** The move of `process_replace`. */
  function Replace(s: Store, lineRequests: seq<LineRequest>, itemRequests: seq<ItemRequest>): (r: Store)
    requires LinesExist(s, lineRequests)
    requires ItemsKnown(s.items, itemRequests)
    ensures |r.lines| == |s.lines| && |s.items| <= |r.items|
  {
    MoveBoth(AddFulfillment(s, Replaced), lineRequests, itemRequests, |s.fulfillments|)
  }

  predicate AlreadyRefunded(s: Store, q: ItemRequest)
    requires q.item < |s.items|
  {
    s.items[q.item].Some? && HasStatus(s, s.items[q.item].value, Refunded)
  }

  /** The requests whose fulfillment line is in a refunded fulfillment, or the others. */
  function Pick(s: Store, requests: seq<ItemRequest>, refunded: bool): (r: seq<ItemRequest>)
    requires ItemsKnown(s.items, requests)
    ensures forall q :: q in r ==> q in requests
  {
    if requests == [] then []
    else
      assert requests[0] in requests;
      (if AlreadyRefunded(s, requests[0]) == refunded then [requests[0]] else []) + Pick(s, requests[1..], refunded)
  }

  /** `_move_lines_to_return_fulfillment` into a fulfillment with the given status. */
  function Return(s: Store, lineRequests: seq<LineRequest>, itemRequests: seq<ItemRequest>, status: Status): Store
    requires LinesExist(s, lineRequests)
    requires ItemsKnown(s.items, itemRequests)
  {
    var target := |s.fulfillments|;
    var moved := MoveLines(AddFulfillment(s, status), lineRequests, target);
    LinesMoved(AddFulfillment(s, status), lineRequests, target);
    var already := Pick(moved, itemRequests, true);
    var listed := Keys(|s.items|, |moved.items|);
    var rest := moved.(items := Transfer(moved.items, Pick(moved, itemRequests, false), listed, target));
    if already == [] then rest
    else
      var there := if status == RefundedAndReturned then rest else AddFulfillment(rest, RefundedAndReturned);
      var other := if status == RefundedAndReturned then target else target + 1;
      there.(items := Transfer(there.items, already, [], other))
  }

  /** `create_fulfillments_for_returned_products`, with the requests split by their `replace` flag. */
  function ReturnProducts(s: Store, replaceLines: seq<LineRequest>, replaceItems: seq<ItemRequest>,
                          returnLines: seq<LineRequest>, returnItems: seq<ItemRequest>, refund: bool): Store
    requires LinesExist(s, replaceLines) && LinesExist(s, returnLines)
    requires ItemsKnown(s.items, replaceItems) && ItemsKnown(s.items, returnItems)
  {
    var replaced := if replaceLines == [] && replaceItems == [] then s else Replace(s, replaceLines, replaceItems);
    DropEmpty(Return(replaced, returnLines, returnItems, if refund then RefundedAndReturned else Returned))
  }
}
